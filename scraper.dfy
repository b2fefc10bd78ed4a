/** The rule-based parts of backend/scraper.py (`BusinessScraper`): query bucketing,
    recommendation rules, competitor defaults, the fallback trend series, and the
    news-relevance filter and user-context lines of `gather_business_data`. */
module Scraper {
  import opened Common
  import opened Strings
  import opened Json

  /** `any(word in text for word in words)`. */
  predicate MentionsAny(text: string, words: seq<string>) {
    exists w :: w in words && Contains(text, w)
  }

  // ---------------------------------------------------------------- categorize_queries

  datatype Category = Price | Feature | Comparison | Other

  const PriceWords: seq<string> := ["price", "cost", "cheap", "expensive"]
  const ComparisonWords: seq<string> := ["vs", "versus", "compare", "better"]
  const FeatureWords: seq<string> := ["how", "what", "why", "feature"]

  /** The category of one query, by substring tests on its lower-cased text, with
      precedence price, then comparison, then feature, then other. */
  function Classify(query: string): (c: Category)
    ensures c == Price <==> MentionsAny(Lower(query), PriceWords)
    ensures c == Comparison <==> !MentionsAny(Lower(query), PriceWords) && MentionsAny(Lower(query), ComparisonWords)
    ensures c == Feature <==>
      !MentionsAny(Lower(query), PriceWords) && !MentionsAny(Lower(query), ComparisonWords)
      && MentionsAny(Lower(query), FeatureWords)
  {
    var text := Lower(query);
    if MentionsAny(text, PriceWords) then Price
    else if MentionsAny(text, ComparisonWords) then Comparison
    else if MentionsAny(text, FeatureWords) then Feature
    else Other
  }

  /** Whether a query falls in category `c` under the classifier `f`. */
  function CategoryTest(f: string -> Category, c: Category): (p: string -> bool)
    ensures forall q :: p(q) == (f(q) == c)
  {
    q => f(q) == c
  }

  /** The original texts of the queries of category `c`, in input order. */
  function Bucket(queries: seq<string>, c: Category): (r: seq<string>)
    ensures forall i :: 0 <= i < |r| ==> r[i] in queries && Classify(r[i]) == c
    ensures forall i :: 0 <= i < |queries| && Classify(queries[i]) == c ==> queries[i] in r
    ensures forall q {:trigger multiset(r)[q]} :: multiset(r)[q] == if Classify(q) == c then multiset(queries)[q] else 0
    ensures IsSubsequence(r, queries)
  {
    FilterMultiset(queries, CategoryTest(Classify, c));
    FilterIsSubsequence(queries, CategoryTest(Classify, c));
    Filter(queries, CategoryTest(Classify, c))
  }

  /** Every query lands in exactly one bucket, so the buckets together hold as many
      queries as the input. */
  lemma BucketsPartition(queries: seq<string>)
    ensures |Bucket(queries, Price)| + |Bucket(queries, Feature)|
      + |Bucket(queries, Comparison)| + |Bucket(queries, Other)| == |queries|
  {
    FilterPartition(queries, Classify);
  }

  /** Under any classifier, the four category filters split the queries between them. */
  lemma {:induction false} FilterPartition(queries: seq<string>, f: string -> Category)
    ensures |Filter(queries, CategoryTest(f, Price))| + |Filter(queries, CategoryTest(f, Feature))|
      + |Filter(queries, CategoryTest(f, Comparison))| + |Filter(queries, CategoryTest(f, Other))| == |queries|
    decreases |queries|
  {
    if queries != [] {
      FilterPartition(queries[1..], f);
    }
  }

  /** The four buckets in the order of the source's dict literal. */
  function AllBuckets(queries: seq<string>): seq<(Category, seq<string>)> {
    [(Price, Bucket(queries, Price)), (Feature, Bucket(queries, Feature)),
     (Comparison, Bucket(queries, Comparison)), (Other, Bucket(queries, Other))]
  }

  /** The result of `categorize_queries`: the buckets with the empty ones dropped. */
  function Categorized(queries: seq<string>): seq<(Category, seq<string>)> {
    DropEmpty(AllBuckets(queries))
  }

  /** Every entry of the result is a non-empty bucket; every non-empty bucket is an
      entry; entries keep the order price, feature, comparison, other. */
  lemma CategorizedEntries(queries: seq<string>, c: Category)
    ensures forall i :: 0 <= i < |Categorized(queries)| ==>
      Categorized(queries)[i].1 != [] && Categorized(queries)[i].1 == Bucket(queries, Categorized(queries)[i].0)
    ensures Bucket(queries, c) != [] ==> (c, Bucket(queries, c)) in Categorized(queries)
    ensures Bucket(queries, c) == [] ==> forall i :: 0 <= i < |Categorized(queries)| ==> Categorized(queries)[i].0 != c
    ensures IsSubsequence(Categorized(queries), AllBuckets(queries))
  {
    var all := AllBuckets(queries);
    var g := (k: Category) => Bucket(queries, k);
    var idx := match c case Price => 0 case Feature => 1 case Comparison => 2 case Other => 3;
    assert all[idx].0 == c;
    AllBucketsByCategory(queries);
    DropEmptyEntries(all, c, idx, g);
  }

  lemma AllBucketsByCategory(queries: seq<string>)
    ensures forall e :: e in AllBuckets(queries) ==> e.1 == Bucket(queries, e.0)
  {
    var all := AllBuckets(queries);
    forall e | e in all ensures e.1 == Bucket(queries, e.0) {
      assert e == all[0] || e == all[1] || e == all[2] || e == all[3];
    }
  }

  /** Dropping the empty entries from a list whose entries are `(k, g(k))`. */
  lemma DropEmptyEntries(all: seq<(Category, seq<string>)>, c: Category, idx: nat, g: Category -> seq<string>)
    requires idx < |all| && all[idx].0 == c
    requires forall e :: e in all ==> e.1 == g(e.0)
    ensures forall i :: 0 <= i < |DropEmpty(all)| ==> DropEmpty(all)[i].1 != [] && DropEmpty(all)[i].1 == g(DropEmpty(all)[i].0)
    ensures g(c) != [] ==> (c, g(c)) in DropEmpty(all)
    ensures g(c) == [] ==> forall i :: 0 <= i < |DropEmpty(all)| ==> DropEmpty(all)[i].0 != c
    ensures IsSubsequence(DropEmpty(all), all)
  {
    assert all[idx] == (c, g(c));
  }

  function DropEmpty(entries: seq<(Category, seq<string>)>): (r: seq<(Category, seq<string>)>)
    ensures forall i :: 0 <= i < |r| ==> r[i] in entries && r[i].1 != []
    ensures forall i :: 0 <= i < |entries| && entries[i].1 != [] ==> entries[i] in r
    ensures IsSubsequence(r, entries)
    decreases |entries|
  {
    if entries == [] then []
    else if entries[0].1 == [] then
      var rest := DropEmpty(entries[1..]);
      SubsequenceOfTail(rest, entries);
      rest
    else [entries[0]] + DropEmpty(entries[1..])
  }

  lemma BucketSnoc(queries: seq<string>, i: nat, c: Category)
    requires i < |queries|
    ensures Bucket(queries[..i + 1], c) == Bucket(queries[..i], c) + (if Classify(queries[i]) == c then [queries[i]] else [])
  {
    assert queries[..i + 1] == queries[..i] + [queries[i]];
    FilterSnoc(queries[..i], queries[i], CategoryTest(Classify, c));
  }

  /** `categorize_queries` as the source writes it: each query's text is appended to
      the bucket of its category, then the empty buckets are dropped. */
  method CategorizeQueries(queries: seq<string>) returns (r: seq<(Category, seq<string>)>)
    ensures r == Categorized(queries)
  {
    var price: seq<string> := [];
    var feature: seq<string> := [];
    var comparison: seq<string> := [];
    var other: seq<string> := [];
    for i := 0 to |queries|
      invariant price == Bucket(queries[..i], Price) && feature == Bucket(queries[..i], Feature)
      invariant comparison == Bucket(queries[..i], Comparison) && other == Bucket(queries[..i], Other)
    {
      BucketSnoc(queries, i, Price);
      BucketSnoc(queries, i, Feature);
      BucketSnoc(queries, i, Comparison);
      BucketSnoc(queries, i, Other);
      var text := Lower(queries[i]);
      if MentionsAny(text, PriceWords) {
        price := price + [queries[i]];
      } else if MentionsAny(text, ComparisonWords) {
        comparison := comparison + [queries[i]];
      } else if MentionsAny(text, FeatureWords) {
        feature := feature + [queries[i]];
      } else {
        other := other + [queries[i]];
      }
    }
    assert queries[..|queries|] == queries;
    r := DropEmpty([(Price, price), (Feature, feature), (Comparison, comparison), (Other, other)]);
  }

  // ---------------------------------------------------------------- generate_recommendations

  const ExpandAdvice := "Focus on rapid market expansion and scaling operations"
  const InvestAdvice := "Invest in marketing to capitalize on growing market interest"
  const NicheAdvice := "Focus on niche markets and differentiation"
  const PivotAdvice := "Consider pivoting or diversifying the business model"
  const LeverageAdvice := "Leverage positive market sentiment in marketing efforts"
  const MaintainAdvice := "Focus on maintaining and building on current success"
  const AddressAdvice := "Address market concerns through improved communication"
  const TrustAdvice := "Focus on building trust and credibility"

  /** The entries a growth label adds: two for "High" or "Low", none otherwise. */
  function TrendRecommendations(growth: string): (r: seq<string>)
    ensures growth == "High" ==> r == [ExpandAdvice, InvestAdvice]
    ensures growth == "Low" ==> r == [NicheAdvice, PivotAdvice]
    ensures growth != "High" && growth != "Low" ==> r == []
  {
    if growth == "High" then [ExpandAdvice, InvestAdvice]
    else if growth == "Low" then [NicheAdvice, PivotAdvice]
    else []
  }

  /** The entries a sentiment label adds: two for "positive" or "negative", none otherwise. */
  function SentimentRecommendations(sentiment: string): (r: seq<string>)
    ensures sentiment == "positive" ==> r == [LeverageAdvice, MaintainAdvice]
    ensures sentiment == "negative" ==> r == [AddressAdvice, TrustAdvice]
    ensures sentiment != "positive" && sentiment != "negative" ==> r == []
  {
    if sentiment == "positive" then [LeverageAdvice, MaintainAdvice]
    else if sentiment == "negative" then [AddressAdvice, TrustAdvice]
    else []
  }

  /** A text containing a non-whitespace character has a first word. */
  lemma {:induction false} SplitWhitespaceNonEmpty(s: string, i: nat)
    requires i < |s| && !IsSpace(s[i])
    ensures SplitWhitespace(s) != []
    decreases |s|
  {
    if IsSpace(s[0]) {
      SplitWhitespaceNonEmpty(s[1..], i - 1);
    }
  }

  /** A text whose lower-cased form contains a phrase starting with a non-whitespace
      character has a first word, so `insight.split()[0]` cannot fail there. */
  lemma HasFirstWord(s: string, phrase: string)
    requires phrase != [] && !IsSpace(phrase[0]) && Contains(Lower(s), phrase)
    ensures SplitWhitespace(s) != []
  {
    ContainsNonSpace(Lower(s), phrase);
    var i :| 0 <= i < |s| && !IsSpace(Lower(s)[i]);
    assert !IsSpace(s[i]);
    SplitWhitespaceNonEmpty(s, i);
  }

  lemma {:induction false} ContainsNonSpace(s: string, phrase: string)
    requires phrase != [] && !IsSpace(phrase[0]) && Contains(s, phrase)
    ensures exists i :: 0 <= i < |s| && !IsSpace(s[i])
    decreases |s|
  {
    if StartsWith(s, phrase) {
      assert s[0] == phrase[0];
    } else {
      ContainsNonSpace(s[1..], phrase);
      var i :| 0 <= i < |s[1..]| && !IsSpace(s[1..][i]);
      assert s[i + 1] == s[1..][i];
    }
  }

  /** The rule for one competitor insight. */
  function CompetitorRule(insight: string): (r: Option<string>)
    ensures Contains(Lower(insight), "strong growth") ==>
      SplitWhitespace(insight) != [] && r == Some("Learn from " + SplitWhitespace(insight)[0] + "'s successful growth strategy")
    ensures !Contains(Lower(insight), "strong growth") && Contains(Lower(insight), "decline") ==>
      SplitWhitespace(insight) != [] && r == Some("Avoid the challenges faced by " + SplitWhitespace(insight)[0])
    ensures !Contains(Lower(insight), "strong growth") && !Contains(Lower(insight), "decline") ==> r == None
  {
    var text := Lower(insight);
    if Contains(text, "strong growth") then
      HasFirstWord(insight, "strong growth");
      Some("Learn from " + SplitWhitespace(insight)[0] + "'s successful growth strategy")
    else if Contains(text, "decline") then
      HasFirstWord(insight, "decline");
      Some("Avoid the challenges faced by " + SplitWhitespace(insight)[0])
    else None
  }

  /** The rule for one financial insight. */
  function FinancialRule(insight: string): (r: Option<string>)
    ensures Contains(Lower(insight), "revenue growth") ==>
      SplitWhitespace(insight) != [] && r == Some("Study " + SplitWhitespace(insight)[0] + "'s revenue growth strategy")
    ensures !Contains(Lower(insight), "revenue growth") && Contains(Lower(insight), "stock price") ==>
      SplitWhitespace(insight) != [] && r == Some("Monitor " + SplitWhitespace(insight)[0] + "'s market performance for insights")
    ensures !Contains(Lower(insight), "revenue growth") && !Contains(Lower(insight), "stock price") ==> r == None
  {
    var text := Lower(insight);
    if Contains(text, "revenue growth") then
      HasFirstWord(insight, "revenue growth");
      Some("Study " + SplitWhitespace(insight)[0] + "'s revenue growth strategy")
    else if Contains(text, "stock price") then
      HasFirstWord(insight, "stock price");
      Some("Monitor " + SplitWhitespace(insight)[0] + "'s market performance for insights")
    else None
  }

  /** The recommendations a list of insights yields under `rule`, in insight order. */
  function RuleOutputs(insights: seq<string>, rule: string -> Option<string>): (r: seq<string>)
    ensures |r| <= |insights|
    decreases |insights|
  {
    if insights == [] then []
    else
      var last := rule(insights[|insights| - 1]);
      RuleOutputs(insights[..|insights| - 1], rule) + (if last.Some? then [last.value] else [])
  }

  lemma RuleOutputsSnoc(insights: seq<string>, i: nat, rule: string -> Option<string>)
    requires i < |insights|
    ensures RuleOutputs(insights[..i + 1], rule)
      == RuleOutputs(insights[..i], rule) + (if rule(insights[i]).Some? then [rule(insights[i]).value] else [])
  {
    assert insights[..i + 1][..i] == insights[..i];
    assert insights[..i + 1][i] == insights[i];
  }

  /** `generate_recommendations`, as a specification: trend, then sentiment, then
      competitor-derived, then financial-derived entries. A falsy insight list is
      iterated as an empty one. */
  function Recommendations(growth: string, sentiment: string,
                           marketInsights: seq<string>, financialInsights: seq<string>): seq<string> {
    TrendRecommendations(growth) + SentimentRecommendations(sentiment)
      + RuleOutputs(marketInsights, CompetitorRule) + RuleOutputs(financialInsights, FinancialRule)
  }

  /** At most two trend entries, two sentiment entries and one entry per insight. */
  lemma RecommendationsBound(growth: string, sentiment: string,
                             marketInsights: seq<string>, financialInsights: seq<string>)
    ensures |Recommendations(growth, sentiment, marketInsights, financialInsights)|
      <= 4 + |marketInsights| + |financialInsights|
    ensures Recommendations(growth, sentiment, marketInsights, financialInsights)[..|TrendRecommendations(growth)|]
      == TrendRecommendations(growth)
  {
  }

  /** `generate_recommendations` as the source writes it: appends in four stages. */
  method GenerateRecommendations(growth: string, sentiment: string,
                                 marketInsights: seq<string>, financialInsights: seq<string>)
    returns (r: seq<string>)
    ensures r == Recommendations(growth, sentiment, marketInsights, financialInsights)
  {
    r := [];
    if growth == "High" {
      r := r + [ExpandAdvice];
      r := r + [InvestAdvice];
    } else if growth == "Low" {
      r := r + [NicheAdvice];
      r := r + [PivotAdvice];
    }
    assert r == TrendRecommendations(growth);
    if sentiment == "positive" {
      r := r + [LeverageAdvice];
      r := r + [MaintainAdvice];
    } else if sentiment == "negative" {
      r := r + [AddressAdvice];
      r := r + [TrustAdvice];
    }
    assert r == TrendRecommendations(growth) + SentimentRecommendations(sentiment);
    r := AppendRuleOutputs(r, marketInsights, CompetitorRule);
    r := AppendRuleOutputs(r, financialInsights, FinancialRule);
  }

  /** One insight loop of `generate_recommendations`: each insight the rule answers
      appends one recommendation. */
  method AppendRuleOutputs(acc: seq<string>, insights: seq<string>, rule: string -> Option<string>)
    returns (r: seq<string>)
    ensures r == acc + RuleOutputs(insights, rule)
  {
    r := acc;
    for i := 0 to |insights|
      invariant r == acc + RuleOutputs(insights[..i], rule)
    {
      RuleOutputsSnoc(insights, i, rule);
      var rec := rule(insights[i]);
      if rec.Some? {
        r := r + [rec.value];
      }
    }
    assert insights[..|insights|] == insights;
  }

  // ---------------------------------------------------------------- analyze_competitors

  datatype CompetitorPatterns = CompetitorPatterns(
    targetMarket: string, competition: string, challenges: seq<string>, successPatterns: seq<string>)

  datatype CompetitorAnalysis = CompetitorAnalysis(
    targetMarket: string, competition: string, challenges: seq<string>, successPatterns: seq<string>,
    marketInsights: seq<string>)

  /** `extract_competitor_patterns`: its analysis branch is empty, so the placeholders
      come back for every input. */
  function ExtractCompetitorPatterns(competitorData: seq<(string, Json)>): (r: CompetitorPatterns)
    ensures r.targetMarket == "Not available" && r.competition == "Not available"
    ensures r.challenges == [] && r.successPatterns == []
  {
    CompetitorPatterns("Not available", "Not available", [], [])
  }

  /** `analyze_competitors`; `insights` stands for the growth insights the source derives
      from each competitor's percentage string. */
  function AnalyzeCompetitors(competitorData: seq<(string, Json)>, insights: seq<string>): (r: CompetitorAnalysis)
    ensures competitorData == [] ==> r == CompetitorAnalysis("Not available", "Not available",
      ["Limited competitor data available"], ["Limited competitor data available"], [])
    ensures competitorData != [] ==> r.challenges == [] && r.successPatterns == [] && r.marketInsights == insights
    ensures r.targetMarket == "Not available" && r.competition == "Not available"
  {
    if competitorData == [] then
      CompetitorAnalysis("Not available", "Not available",
        ["Limited competitor data available"], ["Limited competitor data available"], [])
    else
      var p := ExtractCompetitorPatterns(competitorData);
      CompetitorAnalysis(p.targetMarket, p.competition, p.challenges, p.successPatterns, insights)
  }

  // ---------------------------------------------------------------- fallback trend series

  /** The twelve monthly values used when no trend data can be fetched. */
  function FallbackSeries(): (r: seq<int>)
    ensures |r| == 12
    ensures forall i :: 0 <= i < 12 ==> 50 <= r[i] <= 95 && r[i] % 5 == 0
  {
    seq(12, i requires 0 <= i < 12 => 50 + (i * 5) % 50)
  }

  /** The series starts at 50, climbs by 5 to 95, then wraps back to 50. */
  lemma FallbackSeriesShape()
    ensures forall i :: 0 <= i < 10 ==> FallbackSeries()[i] == 50 + 5 * i
    ensures FallbackSeries()[10] == 50 && FallbackSeries()[11] == 55
  {
  }

  /** The fallback table: every one of the first five terms gets the same series. */
  function FallbackTrends(terms: seq<string>): (r: map<string, seq<int>>)
    ensures r.Keys == set i | 0 <= i < |terms| && i < 5 :: terms[i]
    ensures forall t :: t in r ==> r[t] == FallbackSeries()
  {
    var first := Take(terms, 5);
    map t | t in first :: FallbackSeries()
  }

  // ---------------------------------------------------------------- gather_business_data

  /** A news article: only its title matters here; `None` when the key is absent. */
  datatype Article = Article(title: Option<string>)

  /** `article.get('title', '').lower()`. */
  function TitleText(a: Article): string {
    Lower(if a.title.Some? then a.title.value else "")
  }

  predicate Relevant(a: Article, terms: set<string>) {
    exists t :: t in terms && Contains(TitleText(a), t)
  }

  function RelevanceTest(terms: set<string>): (p: Article -> bool)
    ensures forall a :: p(a) == Relevant(a, terms)
  {
    a => Relevant(a, terms)
  }

  /** The relevant articles, in input order. */
  function RelevantArticles(articles: seq<Article>, terms: set<string>): (r: seq<Article>)
    ensures forall i :: 0 <= i < |r| ==> r[i] in articles && Relevant(r[i], terms)
    ensures forall i :: 0 <= i < |articles| && Relevant(articles[i], terms) ==> articles[i] in r
    ensures forall a {:trigger multiset(r)[a]} :: multiset(r)[a] == if Relevant(a, terms) then multiset(articles)[a] else 0
  {
    FilterMultiset(articles, RelevanceTest(terms));
    Filter(articles, RelevanceTest(terms))
  }

  lemma RelevantArticlesOrdered(articles: seq<Article>, terms: set<string>)
    ensures IsSubsequence(RelevantArticles(articles, terms), articles)
  {
    FilterIsSubsequence(articles, RelevanceTest(terms));
  }

  /** The relevance loop of `gather_business_data`. */
  method FilterRelevantNews(articles: seq<Article>, terms: set<string>) returns (r: seq<Article>)
    ensures r == RelevantArticles(articles, terms)
  {
    r := [];
    for i := 0 to |articles|
      invariant r == RelevantArticles(articles[..i], terms)
    {
      assert articles[..i + 1] == articles[..i] + [articles[i]];
      FilterSnoc(articles[..i], articles[i], RelevanceTest(terms));
      var title := Lower(if articles[i].title.Some? then articles[i].title.value else "");
      if exists t :: t in terms && Contains(title, t) {
        r := r + [articles[i]];
      }
    }
    assert articles[..|articles|] == articles;
  }

  /** The news summary: the relevant titles joined by "; ", or the fixed message. Reading
      `n['title']` raises `KeyError` for a relevant article without a title. */
  function NewsSummary(relevant: seq<Article>): (r: Result<string>)
    ensures relevant == [] ==> r == Ok("No directly relevant news found.")
    ensures r.Err? <==> exists i :: 0 <= i < |relevant| && relevant[i].title.None?
    ensures r.Ok? && relevant != [] ==>
      r.value == "Relevant news: " + Join(seq(|relevant|, i requires 0 <= i < |relevant| => relevant[i].title.value), "; ")
  {
    if relevant == [] then Ok("No directly relevant news found.")
    else if exists i :: 0 <= i < |relevant| && relevant[i].title.None? then Err(KeyError)
    else Ok("Relevant news: " + Join(seq(|relevant|, i requires 0 <= i < |relevant| => relevant[i].title.value), "; "))
  }

  /** Without the empty term, only an article with a title can be relevant. */
  lemma RelevantHasTitle(a: Article, terms: set<string>)
    requires [] !in terms && Relevant(a, terms)
    ensures a.title.Some?
  {
    var t :| t in terms && Contains(TitleText(a), t);
    ContainsLength(TitleText(a), t);
  }

  /** Without the empty term, an article without a title is never relevant, so the
      summary never fails. */
  lemma NewsSummaryDefined(articles: seq<Article>, terms: set<string>)
    requires [] !in terms
    ensures NewsSummary(RelevantArticles(articles, terms)).Ok?
  {
    var rel := RelevantArticles(articles, terms);
    forall i | 0 <= i < |rel| ensures rel[i].title.Some? {
      RelevantHasTitle(rel[i], terms);
    }
  }

  /** The user-context lines: one per non-empty field, in a fixed order. */
  function ContextLines(targetMarket: string, location: string, budget: string, businessModel: string): (r: seq<string>)
    ensures |r| == (if targetMarket != [] then 1 else 0) + (if location != [] then 1 else 0)
      + (if budget != [] then 1 else 0) + (if businessModel != [] then 1 else 0)
    ensures targetMarket != [] ==> r[0] == "Target market: " + targetMarket
    ensures businessModel != [] ==> r[|r| - 1] == "Business model: " + businessModel
    ensures location != [] ==> r[if targetMarket != [] then 1 else 0] == "Location: " + location
    ensures budget != [] ==> r[|r| - 1 - (if businessModel != [] then 1 else 0)] == "Estimated budget: " + budget
  {
    (if targetMarket != [] then ["Target market: " + targetMarket] else [])
    + (if location != [] then ["Location: " + location] else [])
    + (if budget != [] then ["Estimated budget: " + budget] else [])
    + (if businessModel != [] then ["Business model: " + businessModel] else [])
  }

  /** The user-context block of `gather_business_data`, built by appends. */
  method UserContext(targetMarket: string, location: string, budget: string, businessModel: string)
    returns (r: string)
    ensures r == Join(ContextLines(targetMarket, location, budget, businessModel), "\n")
    ensures targetMarket == [] && location == [] && budget == [] && businessModel == [] ==> r == []
  {
    var lines: seq<string> := [];
    if targetMarket != [] {
      lines := lines + ["Target market: " + targetMarket];
    }
    if location != [] {
      lines := lines + ["Location: " + location];
    }
    if budget != [] {
      lines := lines + ["Estimated budget: " + budget];
    }
    if businessModel != [] {
      lines := lines + ["Business model: " + businessModel];
    }
    assert lines == ContextLines(targetMarket, location, budget, businessModel);
    r := if lines != [] then Join(lines, "\n") else "";
  }
}
