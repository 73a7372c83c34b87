/**
 * The news service: read a market RSS feed, pick the headlines relevant to
 * a company, score each with the VADER sentiment analyser and label the
 * average; and the same for the market as a whole.  The parsed feed, the
 * analyser's compound score and Python's float formatting are parameters.
 */
module News {
  import opened Wrappers
  import opened Text

  // ------------------------------------------------------------ sentiment

  datatype Label = Positive | Negative | Neutral {
    function Name(): string {
      match this
      case Positive => "Positive"
      case Negative => "Negative"
      case Neutral => "Neutral"
    }

    /** The order of the labels along the score axis. */
    function Rank(): int {
      match this
      case Negative => -1
      case Neutral => 0
      case Positive => 1
    }
  }

  /** The label get_sentiment_vader gives a compound score. */
  function LabelOf(score: real): (l: Label)
    ensures l == Positive <==> score >= 0.05
    ensures l == Negative <==> score <= -0.05
    ensures l == Neutral <==> -0.05 < score < 0.05
  {
    if score >= 0.05 then Positive
    else if score <= -0.05 then Negative
    else Neutral
  }

  /** A higher score never gets a lower label. */
  lemma LabelIsMonotone(a: real, b: real)
    requires a <= b
    ensures LabelOf(a).Rank() <= LabelOf(b).Rank()
  {
  }

  /** A score and its negation get mirrored labels. */
  lemma LabelIsSymmetric(a: real)
    ensures LabelOf(-a).Rank() == -LabelOf(a).Rank()
  {
  }

  // ----------------------------------------------------------------- feed

  /** One feed entry: its title, when it has one. */
  datatype Entry = Entry(title: Option<string>)

  /** What feedparser.parse gives: the feed's own title and its entries, or an exception. */
  datatype Feed = Unreadable | Parsed(title: Option<string>, entries: seq<Entry>)

  /** An article of fetch_rss_feed: where it came from and its headline. */
  datatype Article = Article(source: string, headline: string)

  /** Python's s[:limit]. */
  function Take<T>(s: seq<T>, limit: int): (t: seq<T>)
    ensures t <= s
    ensures |t| == if limit >= 0 then (if limit < |s| then limit else |s|)
                   else (if |s| + limit > 0 then |s| + limit else 0)
  {
    if limit >= 0 then (if limit < |s| then s[..limit] else s)
    else if |s| + limit > 0 then s[..|s| + limit] else []
  }

  /** A non-negative limit bounds the slice, and a positive one keeps a non-empty list non-empty. */
  lemma TakeBounds<T>(s: seq<T>, limit: int)
    ensures limit >= 0 ==> |Take(s, limit)| <= limit
    ensures |Take(s, limit)| <= |s|
    ensures limit > 0 && s != [] ==> Take(s, limit) != []
  {
  }

  function SourceOf(feed: Feed): string
    requires feed.Parsed?
  {
    feed.title.GetOr("RSS Feed")
  }

  function HeadlineOf(e: Entry): string {
    e.title.GetOr("No Title")
  }

  /** The articles fetch_rss_feed lists: one per entry of the first `limit`, none on an error. */
  function RssArticles(feed: Feed, limit: int): (articles: seq<Article>)
    ensures feed.Unreadable? ==> articles == []
    ensures feed.Parsed? ==> |articles| == |Take(feed.entries, limit)|
    ensures feed.Parsed? ==> forall i :: 0 <= i < |articles| ==>
      articles[i] == Article(SourceOf(feed), HeadlineOf(feed.entries[i]))
  {
    match feed
    case Unreadable => []
    case Parsed(_, entries) =>
      var chosen := Take(entries, limit);
      seq(|chosen|, i requires 0 <= i < |chosen| => Article(SourceOf(feed), HeadlineOf(chosen[i])))
  }

  /** fetch_rss_feed: the loop that appends one article per entry. */
  method FetchRssFeed(feed: Feed, limit: int) returns (articles: seq<Article>)
    ensures articles == RssArticles(feed, limit)
  {
    if feed.Unreadable? {
      return [];
    }
    var chosen := Take(feed.entries, limit);
    articles := [];
    var i := 0;
    while i < |chosen|
      invariant 0 <= i <= |chosen|
      invariant |articles| == i
      invariant forall j :: 0 <= j < i ==> articles[j] == Article(SourceOf(feed), HeadlineOf(chosen[j]))
    {
      articles := articles + [Article(SourceOf(feed), HeadlineOf(chosen[i]))];
      i := i + 1;
    }
  }

  /** A feed lists at most `limit` articles, every one with a source and a headline, defaults included. */
  lemma RssArticlesDefaults(feed: Feed, limit: int, i: int)
    requires feed.Parsed? && 0 <= i < |RssArticles(feed, limit)|
    ensures limit >= 0 ==> |RssArticles(feed, limit)| <= limit
    ensures feed.entries[i].title.None? ==> RssArticles(feed, limit)[i].headline == "No Title"
    ensures feed.title.None? ==> RssArticles(feed, limit)[i].source == "RSS Feed"
    ensures feed.title.Some? ==> RssArticles(feed, limit)[i].source == feed.title.value
  {
    TakeBounds(feed.entries, limit);
  }

  // -------------------------------------------------------------- scoring

  /** An article after scoring: sentiment_score and sentiment_label added. */
  datatype ScoredArticle = ScoredArticle(source: string, headline: string, score: real, sentiment: Label)

  function Score(a: Article, polarity: string -> real): ScoredArticle {
    ScoredArticle(a.source, a.headline, polarity(a.headline), LabelOf(polarity(a.headline)))
  }

  /** The sum of the compound scores of the headlines. */
  function TotalScore(articles: seq<Article>, polarity: string -> real): real {
    if articles == [] then 0.0
    else TotalScore(articles[..|articles| - 1], polarity) + polarity(articles[|articles| - 1].headline)
  }

  /** A compound score: VADER normalises every score into [-1, 1]. */
  predicate InCompoundRange(x: real) {
    -1.0 <= x <= 1.0
  }

  /** Scores in [-1, 1] add up to a total no larger in size than the count. */
  lemma {:induction false} TotalScoreBounds(articles: seq<Article>, polarity: string -> real)
    requires forall i :: 0 <= i < |articles| ==> InCompoundRange(polarity(articles[i].headline))
    ensures -(|articles| as real) <= TotalScore(articles, polarity) <= |articles| as real
  {
    if articles != [] {
      var n := |articles| - 1;
      assert forall i :: 0 <= i < n ==> articles[..n][i] == articles[i];
      TotalScoreBounds(articles[..n], polarity);
      assert InCompoundRange(polarity(articles[n].headline));
    }
  }

  /** Scores in [-1, 1] average to a compound score in [-1, 1]. */
  lemma AverageInRange(articles: seq<Article>, polarity: string -> real)
    requires articles != []
    requires forall i :: 0 <= i < |articles| ==> InCompoundRange(polarity(articles[i].headline))
    ensures InCompoundRange(TotalScore(articles, polarity) / |articles| as real)
  {
    TotalScoreBounds(articles, polarity);
    DivideBounds(TotalScore(articles, polarity), |articles| as real);
  }

  lemma DivideBounds(t: real, n: real)
    requires n > 0.0 && -n <= t <= n
    ensures InCompoundRange(t / n)
  {
    var q := t / n;
    assert q * n == t;
    if q < -1.0 {
      calc {
        t;
        == q * n;
        < -1.0 * n;
      }
    }
    if q > 1.0 {
      calc {
        t;
        == q * n;
        > 1.0 * n;
      }
    }
  }

  /**
   * The loop of get_news_and_sentiment (and of
   * get_global_market_sentiment): score every article and add up the
   * scores.
   */
  method ScoreArticles(articles: seq<Article>, polarity: string -> real)
    returns (scored: seq<ScoredArticle>, total: real)
    ensures |scored| == |articles|
    ensures forall i :: 0 <= i < |articles| ==> scored[i] == Score(articles[i], polarity)
    ensures total == TotalScore(articles, polarity)
  {
    scored, total := [], 0.0;
    var i := 0;
    while i < |articles|
      invariant 0 <= i <= |articles|
      invariant |scored| == i
      invariant forall j :: 0 <= j < i ==> scored[j] == Score(articles[j], polarity)
      invariant total == TotalScore(articles[..i], polarity)
    {
      assert articles[..i + 1][..i] == articles[..i];
      var s := Score(articles[i], polarity);
      scored := scored + [s];
      total := total + s.score;
      i := i + 1;
    }
    assert articles[..|articles|] == articles;
  }

  /** The overall label: VADER's score of the text "Score <avg>", labelled; not a threshold on avg. */
  function OverallLabel(avg: real, polarity: string -> real, show: real -> string): Label {
    LabelOf(polarity("Score " + show(avg)))
  }

  // ------------------------------------------------------ company news

  /** The lower-cased headline contains the keyword. */
  predicate Mentions(a: Article, keyword: string) {
    Contains(Lower(a.headline), keyword)
  }

  /** The comprehension of lines 65-67: the articles mentioning the keyword, in feed order. */
  function Mentioning(articles: seq<Article>, keyword: string): (r: seq<Article>)
    ensures |r| <= |articles|
    ensures forall a :: a in r <==> a in articles && Mentions(a, keyword)
  {
    if articles == [] then []
    else
      var init := Mentioning(articles[..|articles| - 1], keyword);
      var last := articles[|articles| - 1];
      assert forall a :: a in articles <==> a in articles[..|articles| - 1] || a == last;
      if Mentions(last, keyword) then init + [last] else init
  }

  /** Mentioning keeps the feed order: it filters each part of a list separately. */
  lemma {:induction false} MentioningSplits(a: seq<Article>, b: seq<Article>, keyword: string)
    ensures Mentioning(a + b, keyword) == Mentioning(a, keyword) + Mentioning(b, keyword)
  {
    if b == [] {
      assert a + b == a;
    } else {
      var n := |b| - 1;
      assert (a + b)[..|a + b| - 1] == a + b[..n];
      MentioningSplits(a, b[..n], keyword);
    }
  }

  /** On one article, Mentioning keeps it exactly when it mentions the keyword. */
  lemma MentioningOne(x: Article, keyword: string)
    ensures Mentioning([x], keyword) == if Mentions(x, keyword) then [x] else []
  {
    assert [x][..0] == [];
  }

  /**
   * relevant_articles: the first three articles mentioning the keyword or,
   * when none does, the first two of the feed.
   */
  function Relevant(articles: seq<Article>, keyword: string): (r: seq<Article>)
    ensures |r| <= 3
    ensures Mentioning(articles, keyword) != [] ==> r == Take(Mentioning(articles, keyword), 3)
    ensures Mentioning(articles, keyword) == [] ==> r == Take(articles, 2)
    ensures r == [] <==> articles == []
  {
    var matches := Take(Mentioning(articles, keyword), 3);
    if matches == [] && articles != [] then Take(articles, 2) else matches
  }

  /** Every relevant article comes from the feed, and mentions the keyword whenever any article does. */
  lemma RelevantFromFeed(articles: seq<Article>, keyword: string, a: Article)
    requires a in Relevant(articles, keyword)
    ensures a in articles
    ensures Mentioning(articles, keyword) != [] ==> Mentions(a, keyword)
  {
    var m := Mentioning(articles, keyword);
    if m != [] {
      assert a in m;
    } else {
      assert a in articles[..|Take(articles, 2)|];
    }
  }

  datatype NewsError =
    /** company_name.split()[0] raises IndexError for a blank name once the feed has an article. */
    BlankCompanyName

  /** What get_news_and_sentiment returns. */
  datatype NewsReport = NewsReport(articles: seq<ScoredArticle>, overall: Label)

  /** The article shown when the feed has nothing. */
  function Placeholder(companyName: string): (a: ScoredArticle)
    ensures a.source == "System" && a.score == 0.0 && a.sentiment == Neutral
  {
    ScoredArticle("System", "No recent news found for " + companyName, 0.0, Neutral)
  }

  /** The number of articles get_news_and_sentiment fetches. */
  const CompanyFeedLimit: int := 10

  /** The number get_global_market_sentiment fetches. */
  const MarketFeedLimit: int := 5

  /**
   * get_news_and_sentiment: fetch up to ten articles, keep the relevant
   * ones, score them, and label the average; a placeholder when the feed
   * is empty.
   */
  method GetNewsAndSentiment(feed: Feed, companyName: string, polarity: string -> real, show: real -> string)
    returns (result: Result<NewsReport, NewsError>)
    ensures var all := RssArticles(feed, CompanyFeedLimit);
      result.Failure? <==> all != [] && FirstWord(companyName).None?
    ensures RssArticles(feed, CompanyFeedLimit) == [] ==>
      result == Success(NewsReport([Placeholder(companyName)], Neutral))
    ensures var all := RssArticles(feed, CompanyFeedLimit);
      all != [] && FirstWord(companyName).Some? ==>
      var chosen := Relevant(all, Lower(FirstWord(companyName).value));
      && result.Success?
      && |result.value.articles| == |chosen|
      && (forall i :: 0 <= i < |chosen| ==> result.value.articles[i] == Score(chosen[i], polarity))
      && result.value.overall
         == OverallLabel(TotalScore(chosen, polarity) / |chosen| as real, polarity, show)
  {
    var all := FetchRssFeed(feed, CompanyFeedLimit);
    if all == [] {
      return Success(NewsReport([Placeholder(companyName)], Neutral));
    }
    var word := FirstWord(companyName);
    if word.None? {
      return Failure(BlankCompanyName);
    }
    var chosen := Relevant(all, Lower(word.value));
    var scored, total := ScoreArticles(chosen, polarity);
    var avg := total / |chosen| as real;
    return Success(NewsReport(scored, OverallLabel(avg, polarity, show)));
  }

  /** With scores in VADER's range [-1, 1], every shown score, and the average, stays in it. */
  lemma CompanyScoresInRange(feed: Feed, companyName: string, polarity: string -> real)
    requires forall t :: InCompoundRange(polarity(t))
    requires RssArticles(feed, CompanyFeedLimit) != [] && FirstWord(companyName).Some?
    ensures var chosen := Relevant(RssArticles(feed, CompanyFeedLimit), Lower(FirstWord(companyName).value));
      chosen != [] && InCompoundRange(TotalScore(chosen, polarity) / |chosen| as real)
  {
    var chosen := Relevant(RssArticles(feed, CompanyFeedLimit), Lower(FirstWord(companyName).value));
    AverageInRange(chosen, polarity);
  }

  // -------------------------------------------------------- market news

  /** What get_global_market_sentiment returns. */
  datatype MarketReport = MarketReport(overall: Label, trendingTopic: string, keyHeadlines: seq<string>)

  /** The trending topic: the first headline cut at '-', then at '|', then stripped. */
  function TrendingTopic(headline: string): (t: string)
    ensures '-' !in t && '|' !in t
    ensures exists i :: TrimmedAt(CutAt(CutAt(headline, '-'), '|'), t, i)
    ensures t == [] || (!IsSpace(t[0]) && !IsSpace(t[|t| - 1]))
  {
    Strip(CutAt(CutAt(headline, '-'), '|'))
  }

  /** The topic is a piece of the headline. */
  lemma TrendingTopicIsInHeadline(headline: string)
    ensures Contains(headline, TrendingTopic(headline))
  {
    var v := CutAt(headline, '-');
    var u := CutAt(v, '|');
    StripIsContained(u);
    ContainsInPrefix(u, v, Strip(u));
    ContainsInPrefix(v, headline, Strip(u));
  }

  /** A headline "Topic - rest" has the topic "Topic". */
  lemma TrendingTopicOfDashedHeadline(topic: string, rest: string)
    requires topic != [] && !IsSpace(topic[0]) && !IsSpace(topic[|topic| - 1])
    requires '-' !in topic && '|' !in topic
    ensures TrendingTopic(topic + " - " + rest) == topic
  {
    var h := topic + " - " + rest;
    assert h == (topic + " ") + ['-'] + (" " + rest);
    CutAtFinds(topic + " ", '-', " " + rest);
    assert '|' !in topic + " ";
    CutAtAbsent(topic + " ", '|');
    assert topic + " " == "" + topic + " ";
    StripFinds("", topic, " ");
  }

  lemma {:induction false} CutAtAbsent(s: string, c: char)
    requires c !in s
    ensures CutAt(s, c) == s
  {
    if s != [] {
      CutAtAbsent(s[1..], c);
    }
  }

  function Headlines(articles: seq<Article>): (h: seq<string>)
    ensures |h| == |articles|
    ensures forall i :: 0 <= i < |articles| ==> h[i] == articles[i].headline
  {
    seq(|articles|, i requires 0 <= i < |articles| => articles[i].headline)
  }

  /**
   * get_global_market_sentiment: fetch five articles, add up their scores
   * while collecting their headlines, label the average and guess a topic
   * from the first headline.
   */
  method GetGlobalMarketSentiment(feed: Feed, polarity: string -> real, show: real -> string)
    returns (report: MarketReport)
    ensures var articles := RssArticles(feed, MarketFeedLimit);
      articles == [] ==>
      report == MarketReport(Neutral, "News Unavailable", ["Could not fetch market news feed."])
    ensures var articles := RssArticles(feed, MarketFeedLimit);
      articles != [] ==>
      && report.keyHeadlines == Headlines(articles)
      && report.trendingTopic == TrendingTopic(articles[0].headline)
      && report.overall == OverallLabel(TotalScore(articles, polarity) / |articles| as real, polarity, show)
  {
    var articles := FetchRssFeed(feed, MarketFeedLimit);
    if articles == [] {
      return MarketReport(Neutral, "News Unavailable", ["Could not fetch market news feed."]);
    }
    var total := 0.0;
    var headlines: seq<string> := [];
    var i := 0;
    while i < |articles|
      invariant 0 <= i <= |articles|
      invariant total == TotalScore(articles[..i], polarity)
      invariant |headlines| == i
      invariant forall j :: 0 <= j < i ==> headlines[j] == articles[j].headline
    {
      assert articles[..i + 1][..i] == articles[..i];
      total := total + polarity(articles[i].headline);
      headlines := headlines + [articles[i].headline];
      i := i + 1;
    }
    assert articles[..|articles|] == articles;
    assert headlines == Headlines(articles);
    var avg := total / |articles| as real;
    report := MarketReport(OverallLabel(avg, polarity, show), TrendingTopic(headlines[0]), headlines);
  }

  /** The market view lists at most five headlines, and at least one. */
  lemma MarketHeadlineCount(feed: Feed)
    requires RssArticles(feed, MarketFeedLimit) != []
    ensures 1 <= |Headlines(RssArticles(feed, MarketFeedLimit))| <= MarketFeedLimit
  {
    TakeBounds(feed.entries, MarketFeedLimit);
  }
}
