/** News-sentiment aggregation: each article's headline polarity (computed by
    a text-analysis library, an input here) is counted into one of three
    classes, the distinct sources are collected, and the mean polarity is
    turned into a five-way label. */
module Sentiment {
  import opened Common

  /** One article: its headline's polarity and its `source` entry, if any. */
  datatype Article = Article(polarity: real, source: Option<string>)

  datatype Class = PositiveArticle | NeutralArticle | NegativeArticle

  /** The class an article's polarity puts it in. */
  function Classify(polarity: real): (c: Class)
    ensures c == PositiveArticle <==> polarity > 0.2
    ensures c == NegativeArticle <==> polarity < -0.2
  {
    if polarity > 0.2 then PositiveArticle
    else if polarity < -0.2 then NegativeArticle
    else NeutralArticle
  }

  datatype Interpretation = NoData | StronglyNegative | Negative | Neutral | Positive | StronglyPositive

  function Label(i: Interpretation): string {
    match i
    case NoData => "No Data"
    case StronglyNegative => "Strongly Negative"
    case Negative => "Negative"
    case Neutral => "Neutral"
    case Positive => "Positive"
    case StronglyPositive => "Strongly Positive"
  }

  /** Orders the five labels from most negative to most positive. */
  function Rank(i: Interpretation): nat {
    match i
    case NoData => 0
    case StronglyNegative => 0
    case Negative => 1
    case Neutral => 2
    case Positive => 3
    case StronglyPositive => 4
  }

  /** `_interpret_sentiment(score)` */
  function Interpret(score: real): (i: Interpretation)
    ensures i != NoData
  {
    if score > 0.3 then StronglyPositive
    else if score > 0.1 then Positive
    else if score < -0.3 then StronglyNegative
    else if score < -0.1 then Negative
    else Neutral
  }

  /** Each label holds exactly on its own interval; the boundary values
      0.3, 0.1, -0.1 and -0.3 belong to the label nearer to Neutral. */
  lemma InterpretBands(score: real)
    ensures Interpret(score) == StronglyPositive <==> 0.3 < score
    ensures Interpret(score) == Positive <==> 0.1 < score <= 0.3
    ensures Interpret(score) == Neutral <==> -0.1 <= score <= 0.1
    ensures Interpret(score) == Negative <==> -0.3 <= score < -0.1
    ensures Interpret(score) == StronglyNegative <==> score < -0.3
  {
  }

  lemma InterpretExamples()
    ensures Interpret(0.35) == StronglyPositive && Interpret(0.15) == Positive && Interpret(0.0) == Neutral
    ensures Interpret(-0.15) == Negative && Interpret(-0.35) == StronglyNegative
    ensures Interpret(0.3) == Positive && Interpret(0.1) == Neutral && Interpret(-0.1) == Neutral
    ensures Interpret(-0.3) == Negative
  {
  }

  /** A higher mean polarity never gives a more negative label. */
  lemma InterpretMonotone(a: real, b: real)
    requires a <= b
    ensures Rank(Interpret(a)) <= Rank(Interpret(b))
  {
  }

  /** Python's `round(x, 3)`, on exact reals: to the nearest multiple of
      0.001, ties to the even multiple. */
  function Round3(x: real): (r: real)
    ensures -0.0005 <= r - x <= 0.0005
    ensures (r * 1000.0).Floor as real == r * 1000.0
  {
    var y := x * 1000.0;
    var f := y.Floor;
    var d := y - f as real;
    var g := if d < 0.5 then f else if d > 0.5 then f + 1 else if f % 2 == 0 then f else f + 1;
    assert -0.5 <= g as real - y <= 0.5;
    assert (g as real / 1000.0) * 1000.0 == g as real;
    g as real / 1000.0
  }

  // ---------------------------------------------------------------------
  // Aggregation
  // ---------------------------------------------------------------------

  /** `article.get('source', 'Unknown')` */
  function SourceOf(a: Article): string {
    a.source.GetOr("Unknown")
  }

  function Count(articles: seq<Article>, c: Class): nat {
    if articles == [] then 0
    else Count(articles[..|articles| - 1], c) + (if Classify(articles[|articles| - 1].polarity) == c then 1 else 0)
  }

  function SumPolarity(articles: seq<Article>): real {
    if articles == [] then 0.0
    else SumPolarity(articles[..|articles| - 1]) + articles[|articles| - 1].polarity
  }

  function Sources(articles: seq<Article>): set<string> {
    set a | a in articles :: SourceOf(a)
  }

  /** The dictionary `_analyze_sentiment` returns; `sources` is a Python set
      turned into a list, so only its elements are fixed. */
  datatype Summary = Summary(
    averageSentiment: real,
    positiveArticles: nat,
    neutralArticles: nat,
    negativeArticles: nat,
    totalArticles: nat,
    sources: set<string>,
    interpretation: Interpretation)

  /** What `_analyze_sentiment(articles)` returns: one article counted per
      entry, and the reported average within half a thousandth of the mean
      polarity (0 for no articles). */
  function Summarize(articles: seq<Article>): (r: Summary)
    ensures r.totalArticles == |articles|
    ensures articles == [] ==> r.averageSentiment == 0.0
    ensures articles != [] ==>
      -0.0005 <= r.averageSentiment - SumPolarity(articles) / (|articles| as real) <= 0.0005
  {
    if articles == [] then Summary(0.0, 0, 0, 0, 0, {}, NoData)
    else
      var average := SumPolarity(articles) / (|articles| as real);
      Summary(
        Round3(average),
        Count(articles, PositiveArticle),
        Count(articles, NeutralArticle),
        Count(articles, NegativeArticle),
        |articles|,
        Sources(articles),
        Interpret(average))
  }

  /** `_analyze_sentiment`: one pass over the articles, counting classes,
      summing polarities and collecting sources. */
  method AnalyzeSentiment(articles: seq<Article>) returns (r: Summary)
    ensures r == Summarize(articles)
  {
    if |articles| == 0 {
      return Summary(0.0, 0, 0, 0, 0, {}, NoData);
    }
    var sum := 0.0;
    var positive, neutral, negative := 0, 0, 0;
    var sources: set<string> := {};
    var i := 0;
    while i < |articles|
      invariant 0 <= i <= |articles|
      invariant sum == SumPolarity(articles[..i])
      invariant positive == Count(articles[..i], PositiveArticle)
      invariant neutral == Count(articles[..i], NeutralArticle)
      invariant negative == Count(articles[..i], NegativeArticle)
      invariant sources == Sources(articles[..i])
    {
      var article := articles[i];
      assert articles[..i + 1][..i] == articles[..i];
      sum := sum + article.polarity;
      match Classify(article.polarity) {
        case PositiveArticle => positive := positive + 1;
        case NegativeArticle => negative := negative + 1;
        case NeutralArticle => neutral := neutral + 1;
      }
      assert Sources(articles[..i + 1]) == Sources(articles[..i]) + {SourceOf(article)} by {
        assert articles[..i + 1] == articles[..i] + [article];
      }
      sources := sources + {SourceOf(article)};
      i := i + 1;
    }
    assert articles[..i] == articles;
    var average := sum / (|articles| as real);
    r := Summary(Round3(average), positive, neutral, negative, |articles|, sources, Interpret(average));
  }

  lemma {:induction false} CountsPartition(articles: seq<Article>)
    ensures Count(articles, PositiveArticle) + Count(articles, NeutralArticle) + Count(articles, NegativeArticle) == |articles|
  {
    if articles != [] {
      CountsPartition(articles[..|articles| - 1]);
    }
  }

  lemma {:induction false} SourcesBounded(articles: seq<Article>)
    ensures |Sources(articles)| <= |articles|
    ensures articles != [] ==> Sources(articles) != {}
  {
    if articles != [] {
      var init := articles[..|articles| - 1];
      var last := articles[|articles| - 1];
      SourcesBounded(init);
      assert articles == init + [last];
      assert Sources(articles) == Sources(init) + {SourceOf(last)};
      assert SourceOf(last) in Sources(articles);
    }
  }

  /** The returned counts split the articles exactly, the sources are at most
      one per article, and an empty list gives all zeros and "No Data". */
  lemma SummaryShape(articles: seq<Article>)
    ensures var s := Summarize(articles);
      && s.totalArticles == |articles|
      && s.positiveArticles + s.neutralArticles + s.negativeArticles == s.totalArticles
      && |s.sources| <= s.totalArticles
      && (s.interpretation == NoData <==> articles == [])
      && (articles == [] ==> s.sources == {} && s.averageSentiment == 0.0 && s.positiveArticles == 0)
  {
    if articles != [] {
      CountsPartition(articles);
      SourcesBounded(articles);
    }
  }

  /** The label is taken from the exact mean, not from the rounded
      `average_sentiment` reported beside it, so the two can disagree: one
      article of polarity 0.1004 is reported as 0.1 yet labelled Positive,
      while 0.1 itself is Neutral. */
  lemma LabelUsesUnroundedMean()
    ensures var s := Summarize([Article(0.1004, Some("Finviz"))]);
      s.averageSentiment == 0.1 && s.interpretation == Positive && Interpret(s.averageSentiment) == Neutral
  {
    var articles := [Article(0.1004, Some("Finviz"))];
    assert articles[..0] == [];
    assert SumPolarity(articles) == 0.1004;
    assert (100.4).Floor == 100;
  }

  // ---------------------------------------------------------------------
  // The tool entry point
  // ---------------------------------------------------------------------

  /** `sentiment_analysis(ticker)` as written: the two news helpers are
      declared with a leading `self` parameter but called with the ticker
      alone, so the first call raises a TypeError before any news is read. */
  function SentimentToolAsWritten(ticker: string): (r: Result<Summary>)
    ensures r.Failure?
  {
    Failure("_get_yfinance_news() missing 1 required positional argument: 'ticker'")
  }

  /** `sentiment_analysis(ticker)` with the helpers called as intended: the
      Yahoo Finance articles followed by the Finviz articles are analysed. */
  function SentimentTool(ticker: string, yahooNews: seq<Article>, finvizNews: seq<Article>): (r: Result<Summary>)
    ensures r.Success?
    ensures r.value.totalArticles == |yahooNews| + |finvizNews|
    ensures r.value.positiveArticles + r.value.neutralArticles + r.value.negativeArticles == r.value.totalArticles
  {
    SummaryShape(yahooNews + finvizNews);
    Success(Summarize(yahooNews + finvizNews))
  }

  /** Whatever news there is, the tool as written reports no analysis, where
      the intended tool analyses every article. */
  lemma SentimentToolNeverAnalyses(ticker: string, yahooNews: seq<Article>, finvizNews: seq<Article>)
    requires yahooNews + finvizNews != []
    ensures SentimentToolAsWritten(ticker).Failure?
    ensures SentimentTool(ticker, yahooNews, finvizNews).value.interpretation != NoData
  {
    SummaryShape(yahooNews + finvizNews);
  }
}
