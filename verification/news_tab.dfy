/** src/components/markets/news/NewsTab.tsx: the news feed under a filter, shown ten
    items at a time. */
module NewsTab {
  import opened Prelude
  import opened MarketTypes

  /** The mock portfolio the 'holdings' filter compares tickers against. */
  const PortfolioHoldings: seq<string> := ["AAPL", "GOOGL", "MSFT", "NVDA", "META", "AMZN", "TSLA"]

  const PageSize: nat := 10

  /** `'all' | 'holdings' | 'market' | 'earnings'`. */
  datatype NewsFilter = All | Holdings | MarketNews | EarningsNews

  /** `item.tickers?.some(t => portfolioHoldings.includes(t))`. */
  predicate MentionsHolding(item: NewsItem): (b: bool)
    ensures b <==> exists t :: t in item.tickers && t in PortfolioHoldings
    ensures item.tickers == [] ==> !b
  {
    exists k :: 0 <= k < |item.tickers| && item.tickers[k] in PortfolioHoldings
  }

  /** Whether an item passes the filter. */
  predicate Keeps(filter: NewsFilter, item: NewsItem): (b: bool)
    ensures filter == All ==> b
    ensures filter == Holdings ==> (b <==> MentionsHolding(item))
    ensures filter == MarketNews ==> (b <==> item.category == Market || item.category == Economy)
    ensures filter == EarningsNews ==> (b <==> item.category == Earnings)
  {
    match filter
    case All => true
    case Holdings => MentionsHolding(item)
    case MarketNews => item.category == Market || item.category == Economy
    case EarningsNews => item.category == Earnings
  }

  /** `filteredNews`: the feed's items that pass the filter, in feed order. */
  function FilteredNews(feed: seq<NewsItem>, filter: NewsFilter): (r: seq<NewsItem>)
    ensures forall item :: item in r ==> item in feed && Keeps(filter, item)
    ensures forall item :: item in feed && Keeps(filter, item) ==> item in r
    ensures IsSubsequence(r, feed)
    ensures filter == All ==> r == feed
  {
    FilterIsSubsequence(feed, (item: NewsItem) => Keeps(filter, item));
    if filter == All then
      FilterAll(feed, (item: NewsItem) => Keeps(filter, item));
      Filter(feed, (item: NewsItem) => Keeps(filter, item))
    else
      Filter(feed, (item: NewsItem) => Keeps(filter, item))
  }

  lemma {:induction false} FilterAll<T>(s: seq<T>, p: T -> bool)
    requires forall x :: p(x)
    ensures Filter(s, p) == s
  {
    if s != [] {
      FilterAll(s[1..], p);
    }
  }

  /** An item without tickers never passes the 'holdings' filter. */
  lemma NoTickersNoHolding(item: NewsItem)
    requires item.tickers == []
    ensures !Keeps(Holdings, item)
  {
  }

  /** The 'market' and 'earnings' filters never keep the same item. */
  lemma CategoryFiltersDisjoint(feed: seq<NewsItem>, item: NewsItem)
    ensures !(item in FilteredNews(feed, MarketNews) && item in FilteredNews(feed, EarningsNews))
  {
  }

  /** `displayedNews`: the first `visibleCount` filtered items. */
  function DisplayedNews(feed: seq<NewsItem>, filter: NewsFilter, visibleCount: nat): (r: seq<NewsItem>)
    ensures |r| == MinInt(visibleCount, |FilteredNews(feed, filter)|)
    ensures r == FilteredNews(feed, filter)[..|r|]
    ensures IsSubsequence(r, feed)
  {
    var filtered := FilteredNews(feed, filter);
    var r := Take(filtered, visibleCount);
    SubsequencePrefix(filtered, feed, |r|);
    r
  }

  /** `hasMore`: the "load more" button shows exactly while filtered items are hidden. */
  predicate HasMore(feed: seq<NewsItem>, filter: NewsFilter, visibleCount: nat)
  {
    visibleCount < |FilteredNews(feed, filter)|
  }

  lemma HasMoreIffHidden(feed: seq<NewsItem>, filter: NewsFilter, visibleCount: nat)
    ensures HasMore(feed, filter, visibleCount) <==> |DisplayedNews(feed, filter, visibleCount)| < |FilteredNews(feed, filter)|
  {
  }

  class NewsTab {
    /** The mock feed. */
    const feed: seq<NewsItem>
    var filter: NewsFilter
    var visibleCount: nat

    function Displayed(): seq<NewsItem>
      reads this
    {
      DisplayedNews(feed, filter, visibleCount)
    }

    constructor(feed: seq<NewsItem>)
      ensures this.feed == feed && filter == All && visibleCount == PageSize
      ensures Displayed() == Take(feed, PageSize)
    {
      this.feed := feed;
      filter := All;
      visibleCount := PageSize;
    }

    /** `setFilter`: the count of visible items is kept as it was. */
    method SetFilter(f: NewsFilter)
      modifies this
      ensures filter == f && visibleCount == old(visibleCount)
    {
      filter := f;
    }

    /** `handleLoadMore`: ten more items, but never more than there are. */
    method HandleLoadMore()
      modifies this
      ensures visibleCount == MinInt(old(visibleCount) + PageSize, |FilteredNews(feed, filter)|)
      ensures filter == old(filter)
      ensures old(HasMore(feed, filter, visibleCount)) ==>
        old(visibleCount) < visibleCount && Displayed()[..|old(Displayed())|] == old(Displayed())
    {
      visibleCount := MinInt(visibleCount + PageSize, |FilteredNews(feed, filter)|);
    }
  }
}
