/** Report shaping in backend/analyzer.py (`BusinessAnalyzer`): key-phrase extraction,
    keyword bucketing of success stories, default filling and placeholder lists of the
    validation report, and the text layout of a business-plan section. */
module Analyzer {
  import opened Common
  import opened Strings
  import opened Json

  // ---------------------------------------------------------------- extract_key_phrases

  const StopWords: set<string> :=
    {"the", "a", "an", "and", "or", "but", "in", "on", "at", "to", "for", "of", "with", "by"}

  /** The characters `re.sub(r'[^\w\s]', '', ...)` keeps. */
  predicate KeptChar(c: char) { IsWordChar(c) || IsSpace(c) }

  /** The lower-cased text with every character other than word characters and
      whitespace removed. */
  function CleanText(text: string): (r: string)
    ensures forall i :: 0 <= i < |r| ==> KeptChar(r[i]) && !IsAsciiUpper(r[i])
  {
    LowerHasNoUpper(text);
    Filter(Lower(text), KeptChar)
  }

  function Words(text: string): seq<string> {
    SplitWhitespace(CleanText(text))
  }

  predicate IsKeyPhrase(w: string) { w !in StopWords && |w| > 3 }

  /** Every word of the cleaned text is made of word characters only. */
  lemma WordsAreWordChars(text: string)
    ensures forall w, c :: w in Words(text) && c in w ==> IsWordChar(c)
  {
    SplitWhitespaceChars(CleanText(text));
    forall w, c | w in Words(text) && c in w ensures IsWordChar(c) {
      var k :| 0 <= k < |Words(text)| && Words(text)[k] == w;
      assert c in CleanText(text);
    }
  }

  /** `extract_key_phrases`: the distinct cleaned words that are not stop words and are
      longer than three characters. The source returns `list(set(...))`, whose order
      Python leaves unspecified; this model keeps the first-appearance order. */
  method ExtractKeyPhrases(text: string) returns (r: seq<string>)
    ensures forall i, j :: 0 <= i < j < |r| ==> r[i] != r[j]
    ensures forall w :: w in r <==> w in Words(text) && IsKeyPhrase(w)
    ensures forall w :: w in r ==> |w| > 3 && w !in StopWords && forall c :: c in w ==> IsWordChar(c)
  {
    var words := Words(text);
    WordsAreWordChars(text);
    r := [];
    for i := 0 to |words|
      invariant forall a, b :: 0 <= a < b < |r| ==> r[a] != r[b]
      invariant forall w :: w in r <==> w in words[..i] && IsKeyPhrase(w)
    {
      assert words[..i + 1] == words[..i] + [words[i]];
      if IsKeyPhrase(words[i]) && words[i] !in r {
        r := r + [words[i]];
      }
    }
    assert words[..|words|] == words;
  }

  // ---------------------------------------------------------------- analyze_success_patterns

  /** A success story: the two fields the bucketing reads. */
  datatype Story = Story(title: string, summary: string)

  datatype Patterns = Patterns(challenges: seq<Story>, solutions: seq<Story>, strategies: seq<Story>)

  const ChallengeWords: seq<string> := ["challenge", "problem", "issue", "difficulty"]
  const SolutionWords: seq<string> := ["solution", "solve", "overcome", "success"]
  const StrategyWords: seq<string> := ["strategy", "approach", "method", "plan"]

  /** The text a story is searched in: title, a space, summary, lower-cased. */
  function StoryText(s: Story): string {
    Lower(s.title + " " + s.summary)
  }

  predicate MentionsAny(text: string, words: seq<string>) {
    exists w :: w in words && Contains(text, w)
  }

  predicate IsChallengeStory(s: Story) { MentionsAny(StoryText(s), ChallengeWords) }
  predicate IsSolutionStory(s: Story) { MentionsAny(StoryText(s), SolutionWords) }
  predicate IsStrategyStory(s: Story) { MentionsAny(StoryText(s), StrategyWords) }

  /** `analyze_success_patterns`: three independent tests per story, each appending the
      story to its bucket. */
  method AnalyzeSuccessPatterns(stories: seq<Story>) returns (p: Patterns)
    ensures p.challenges == Filter(stories, IsChallengeStory)
    ensures p.solutions == Filter(stories, IsSolutionStory)
    ensures p.strategies == Filter(stories, IsStrategyStory)
  {
    p := Patterns([], [], []);
    for i := 0 to |stories|
      invariant p.challenges == Filter(stories[..i], IsChallengeStory)
      invariant p.solutions == Filter(stories[..i], IsSolutionStory)
      invariant p.strategies == Filter(stories[..i], IsStrategyStory)
    {
      var story := stories[i];
      assert stories[..i + 1] == stories[..i] + [story];
      FilterSnoc(stories[..i], story, IsChallengeStory);
      FilterSnoc(stories[..i], story, IsSolutionStory);
      FilterSnoc(stories[..i], story, IsStrategyStory);
      var text := Lower(story.title + " " + story.summary);
      if MentionsAny(text, ChallengeWords) {
        p := p.(challenges := p.challenges + [story]);
      }
      if MentionsAny(text, SolutionWords) {
        p := p.(solutions := p.solutions + [story]);
      }
      if MentionsAny(text, StrategyWords) {
        p := p.(strategies := p.strategies + [story]);
      }
    }
    assert stories[..|stories|] == stories;
  }

  /** Each bucket keeps the input order and holds exactly the stories whose text
      mentions one of its words; the three tests are independent. */
  lemma BucketsAreOrderedSelections(stories: seq<Story>, s: Story)
    ensures IsSubsequence(Filter(stories, IsChallengeStory), stories)
    ensures IsSubsequence(Filter(stories, IsSolutionStory), stories)
    ensures IsSubsequence(Filter(stories, IsStrategyStory), stories)
    ensures s in Filter(stories, IsChallengeStory) <==> s in stories && IsChallengeStory(s)
    ensures s in Filter(stories, IsSolutionStory) <==> s in stories && IsSolutionStory(s)
    ensures s in Filter(stories, IsStrategyStory) <==> s in stories && IsStrategyStory(s)
  {
    FilterIsSubsequence(stories, IsChallengeStory);
    FilterIsSubsequence(stories, IsSolutionStory);
    FilterIsSubsequence(stories, IsStrategyStory);
  }

  // ---------------------------------------------------------------- format_market_analysis

  datatype MarketAnalysis = MarketAnalysis(marketSize: Json, growthPotential: Json, targetMarket: Json, competition: Json)

  /** `v` is what `fields.get(key, default)` returns. */
  predicate FieldOr(fields: seq<(string, Json)>, key: string, default: Json, v: Json) {
    (key in Keys(fields) ==> Get(fields, key) == Some(v)) && (key !in Keys(fields) ==> v == default)
  }

  lemma GetOrIsFieldOr(fields: seq<(string, Json)>, key: string, default: Json)
    ensures FieldOr(fields, key, default, GetOr(fields, key, default))
  {
  }

  /** The four market fields of `fields`, each defaulting to the matching field of `d`. */
  function AnalysisWith(fields: seq<(string, Json)>, d: MarketAnalysis): (r: MarketAnalysis)
    ensures FieldOr(fields, "market_size", d.marketSize, r.marketSize)
    ensures FieldOr(fields, "growth_potential", d.growthPotential, r.growthPotential)
    ensures FieldOr(fields, "target_market", d.targetMarket, r.targetMarket)
    ensures FieldOr(fields, "competition", d.competition, r.competition)
  {
    MarketAnalysis(
      GetOr(fields, "market_size", d.marketSize),
      GetOr(fields, "growth_potential", d.growthPotential),
      GetOr(fields, "target_market", d.targetMarket),
      GetOr(fields, "competition", d.competition))
  }

  const NotAvailable: Json := Str("Not available")

  /** `format_market_analysis`: a dict gives its four fields with "Not available" for
      the missing ones; anything else has no `.get` and raises `AttributeError`. */
  function FormatMarketAnalysis(data: Json): (r: Result<MarketAnalysis>)
    ensures r.Ok? <==> data.Obj?
    ensures r.Ok? ==> r.value == AnalysisWith(data.fields, MarketAnalysis(NotAvailable, NotAvailable, NotAvailable, NotAvailable))
    ensures data == Obj([]) ==> r == Ok(MarketAnalysis(NotAvailable, NotAvailable, NotAvailable, NotAvailable))
  {
    if data.Obj? then Ok(AnalysisWith(data.fields, MarketAnalysis(NotAvailable, NotAvailable, NotAvailable, NotAvailable)))
    else Err(AttributeError)
  }

  // ---------------------------------------------------------------- format_list_section

  datatype ListSection = ListSection(title: string, items: Json)

  /** `format_list_section`: the title is kept; falsy items become the one-element
      placeholder list, anything else is kept as it is. The items are always truthy. */
  function FormatListSection(items: Json, title: string): (r: ListSection)
    ensures r.title == title
    ensures Truthy(r.items)
    ensures Truthy(items) ==> r.items == items
    ensures !Truthy(items) ==> r.items == Arr([Str("No data available")])
  {
    if !Truthy(items) then ListSection(title, Arr([Str("No data available")]))
    else ListSection(title, items)
  }

  // ---------------------------------------------------------------- generate_validation_report

  /** Python's `lst.extend(x)`: the elements a value contributes when iterated. */
  function Iterate(j: Json): (r: Result<seq<Json>>)
    ensures j.Arr? ==> r == Ok(j.items)
    ensures r.Err? <==> j.Null? || j.Bool? || j.Num?
    ensures j.Str? ==> r.Ok? && |r.value| == |j.s|
    ensures j.Obj? ==> r.Ok? && |r.value| == |j.fields|
  {
    match j
    case Arr(a) => Ok(a)
    case Str(s) => Ok(seq(|s|, i requires 0 <= i < |s| => Str([s[i]])))
    case Obj(f) => Ok(seq(|f|, i requires 0 <= i < |f| => Str(f[i].0)))
    case _ => Err(TypeError)
  }

  /** What one category contributes: its `items` when it is a dict holding them. */
  function Contribution(category: Json): (r: Result<seq<Json>>)
    ensures !(category.Obj? && "items" in Keys(category.fields)) ==> r == Ok([])
  {
    if category.Obj? && "items" in Keys(category.fields) then Iterate(Get(category.fields, "items").value)
    else Ok([])
  }

  /** Appending after a result: the first error wins. */
  function Then(acc: Result<seq<Json>>, more: Result<seq<Json>>): (r: Result<seq<Json>>)
    ensures acc.Err? ==> r == acc
    ensures acc.Ok? && more.Ok? ==> r == Ok(acc.value + more.value)
  {
    if acc.Err? then acc else if more.Err? then more else Ok(acc.value + more.value)
  }

  /** The items of the categories, in category order, as the extend loop collects them. */
  function ItemsOfCategories(cats: seq<(string, Json)>): Result<seq<Json>>
    decreases |cats|
  {
    if cats == [] then Ok([])
    else Then(ItemsOfCategories(cats[..|cats| - 1]), Contribution(cats[|cats| - 1].1))
  }

  lemma ItemsStep(cats: seq<(string, Json)>, i: nat)
    requires i < |cats|
    ensures ItemsOfCategories(cats[..i + 1]) == Then(ItemsOfCategories(cats[..i]), Contribution(cats[i].1))
  {
    assert cats[..i + 1][..i] == cats[..i];
  }

  /** A category whose `items`, if any, is a list. */
  predicate ListCategory(category: Json) {
    category.Obj? && "items" in Keys(category.fields) ==> Get(category.fields, "items").value.Arr?
  }

  /** Reference definition: the `items` lists of the dict categories holding one,
      concatenated front to back. */
  function ListItems(cats: seq<(string, Json)>): seq<Json>
    decreases |cats|
  {
    if cats == [] then []
    else
      var c := cats[0].1;
      (if c.Obj? && "items" in Keys(c.fields) && Get(c.fields, "items").value.Arr?
       then Get(c.fields, "items").value.items else [])
      + ListItems(cats[1..])
  }

  lemma {:induction false} ListItemsSnoc(cats: seq<(string, Json)>)
    requires cats != []
    ensures ListItems(cats) == ListItems(cats[..|cats| - 1])
      + (var c := cats[|cats| - 1].1;
         if c.Obj? && "items" in Keys(c.fields) && Get(c.fields, "items").value.Arr?
         then Get(c.fields, "items").value.items else [])
    decreases |cats|
  {
    if |cats| > 1 {
      ListItemsSnoc(cats[1..]);
      assert cats[1..][..|cats| - 2] == cats[..|cats| - 1][1..];
    }
  }

  /** When every category's `items` is a list, the collected items are exactly the
      concatenation of those lists in category order; non-dict categories and dicts
      without `items` contribute nothing. */
  lemma {:induction false} ItemsAreConcatenation(cats: seq<(string, Json)>)
    requires forall i :: 0 <= i < |cats| ==> ListCategory(cats[i].1)
    ensures ItemsOfCategories(cats) == Ok(ListItems(cats))
    decreases |cats|
  {
    if cats != [] {
      ItemsAreConcatenation(cats[..|cats| - 1]);
      ListItemsSnoc(cats);
    }
  }

  /** The collection for one of `recommendations` / `best_practices`: only when
      `'categories' in data`; then `data['categories'].values()` is walked. */
  function CategoryItems(data: Json): Result<seq<Json>> {
    match In("categories", data)
    case Err(e) => Err(e)
    case Ok(present) =>
      if !present then Ok([])
      else
        match Index(data, "categories")
        case Err(e) => Err(e)
        case Ok(cats) => if cats.Obj? then ItemsOfCategories(cats.fields) else Err(AttributeError)
  }

  /** The extend loop of `generate_validation_report`. */
  method CollectCategoryItems(data: Json) returns (r: Result<seq<Json>>)
    ensures r == CategoryItems(data)
    ensures data == Obj([]) ==> r == Ok([])
  {
    var present := In("categories", data);
    if present.Err? {
      return Err(present.error);
    }
    if !present.value {
      return Ok([]);
    }
    var cats := Index(data, "categories");
    if cats.Err? {
      return Err(cats.error);
    }
    if !cats.value.Obj? {
      return Err(AttributeError);
    }
    var values := cats.value.fields;
    var items: seq<Json> := [];
    for i := 0 to |values|
      invariant ItemsOfCategories(values[..i]) == Ok(items)
    {
      ItemsStep(values, i);
      var category := values[i].1;
      if category.Obj? && "items" in Keys(category.fields) {
        var more := Iterate(Get(category.fields, "items").value);
        if more.Err? {
          ErrorPersists(values, i + 1, more.error);
          return Err(more.error);
        }
        items := items + more.value;
      } else {
        assert items + [] == items;
      }
    }
    assert values[..|values|] == values;
    r := Ok(items);
  }

  /** Once the walk has failed, it stays failed with the same error. */
  lemma {:induction false} ErrorPersists(cats: seq<(string, Json)>, n: nat, e: PyError)
    requires n <= |cats| && ItemsOfCategories(cats[..n]) == Err(e)
    ensures ItemsOfCategories(cats) == Err(e)
    decreases |cats| - n
  {
    if n < |cats| {
      assert cats[..n + 1][..n] == cats[..n];
      ErrorPersists(cats, n + 1, e);
    } else {
      assert cats[..n] == cats;
    }
  }

  datatype Report = Report(
    summary: Json,
    market: MarketAnalysis,
    successPatterns: ListSection,
    challenges: ListSection,
    recommendations: ListSection,
    bestPractices: ListSection,
    graphData: Option<Json>,
    error: Option<PyError>)

  const ReportDefaults: MarketAnalysis := MarketAnalysis(
    Str("Market size data not available"), Str("Growth potential data not available"),
    Str("Target market data not available"), Str("Competition data not available"))

  const PatternsTitle: string := "Success Patterns and Best Practices"
  const ChallengesTitle: string := "Challenges and Considerations"
  const RecommendationsTitle: string := "Recommendations"
  const PracticesTitle: string := "Best Practices"

  /** The defaults the report uses when the input lacks a field. */
  const NoSummary: string := "No summary available"
  const NoPatterns: string := "No success patterns available"
  const NoChallenges: string := "No challenges identified"
  const NoRecommendations: string := "No specific recommendations available"
  const NoPractices: string := "No specific best practices available"

  /** `recommendations or [placeholder]`. */
  function OrPlaceholder(items: seq<Json>, placeholder: string): (r: Json)
    ensures r.Arr? && r.items != []
    ensures items != [] ==> r == Arr(items)
  {
    if items == [] then Arr([Str(placeholder)]) else Arr(items)
  }

  /** The fields the report is read from: a non-dict input is read as `{}`. */
  function InputFields(businessData: Json): (f: seq<(string, Json)>)
    ensures businessData.Obj? ==> f == businessData.fields
    ensures !businessData.Obj? ==> f == []
  {
    if businessData.Obj? then businessData.fields else []
  }

  /** `validation_results.get(key, {}).get('items', [placeholder])`, where both `.get`
      receivers are dicts. */
  function ValidationItems(f: seq<(string, Json)>, key: string, placeholder: string): Json
    requires GetOr(f, "validation_results", Obj([])).Obj?
    requires GetOr(GetOr(f, "validation_results", Obj([])).fields, key, Obj([])).Obj?
  {
    GetOr(GetOr(GetOr(f, "validation_results", Obj([])).fields, key, Obj([])).fields, "items", Arr([Str(placeholder)]))
  }

  /** The `try` body raises nothing: every value `.get` is called on is a dict, and
      neither category walk raises. */
  predicate ReportSucceeds(f: seq<(string, Json)>) {
    var vr := GetOr(f, "validation_results", Obj([]));
    && GetOr(f, "market_analysis", Obj([])).Obj?
    && vr.Obj?
    && GetOr(vr.fields, "challenges", Obj([])).Obj?
    && GetOr(vr.fields, "success_patterns", Obj([])).Obj?
    && CategoryItems(GetOr(f, "recommendations", Obj([]))).Ok?
    && CategoryItems(GetOr(f, "best_practices", Obj([]))).Ok?
  }

  /** The `try` body of `generate_validation_report` on the dict `f`. */
  function ReportOf(f: seq<(string, Json)>): Result<Report> {
    var ma := GetOr(f, "market_analysis", Obj([]));
    var vr := GetOr(f, "validation_results", Obj([]));
    if !ma.Obj? || !vr.Obj? then Err(AttributeError)
    else
      var ch := GetOr(vr.fields, "challenges", Obj([]));
      if !ch.Obj? then Err(AttributeError)
      else
        var sp := GetOr(vr.fields, "success_patterns", Obj([]));
        if !sp.Obj? then Err(AttributeError)
        else
          var recs := CategoryItems(GetOr(f, "recommendations", Obj([])));
          if recs.Err? then Err(recs.error)
          else
            var practices := CategoryItems(GetOr(f, "best_practices", Obj([])));
            if practices.Err? then Err(practices.error)
            else
              Ok(Report(
                GetOr(f, "summary", Str(NoSummary)),
                AnalysisWith(ma.fields, ReportDefaults),
                FormatListSection(ValidationItems(f, "success_patterns", NoPatterns), PatternsTitle),
                FormatListSection(ValidationItems(f, "challenges", NoChallenges), ChallengesTitle),
                FormatListSection(OrPlaceholder(recs.value, NoRecommendations), RecommendationsTitle),
                FormatListSection(OrPlaceholder(practices.value, NoPractices), PracticesTitle),
                if "graph_data" in Keys(f) then Get(f, "graph_data") else None,
                None))
  }

  /** The fixed report of the `except` branch; the exception is kept by kind. */
  function ErrorReport(e: PyError): Report {
    Report(
      Str("Error generating full report"),
      ReportDefaults,
      FormatListSection(Arr([Str("Unable to analyze success patterns")]), PatternsTitle),
      FormatListSection(Arr([Str("Unable to identify challenges")]), ChallengesTitle),
      FormatListSection(Arr([Str("Unable to generate recommendations")]), RecommendationsTitle),
      FormatListSection(Arr([Str("Unable to generate best practices")]), PracticesTitle),
      None,
      Some(e))
  }

  /** `generate_validation_report`: a non-dict input is read as `{}`; any exception in
      the body yields the fixed error report. Every section keeps its fixed title and a
      truthy item list, and `graph_data` is copied exactly when the input holds it. */
  function GenerateValidationReport(businessData: Json): (r: Report)
    ensures r.successPatterns.title == PatternsTitle && r.challenges.title == ChallengesTitle
    ensures r.recommendations.title == RecommendationsTitle && r.bestPractices.title == PracticesTitle
    ensures Truthy(r.successPatterns.items) && Truthy(r.challenges.items)
    ensures Truthy(r.recommendations.items) && Truthy(r.bestPractices.items)
    ensures r.error.None? ==>
      (r.graphData.Some? <==> businessData.Obj? && "graph_data" in Keys(businessData.fields))
    ensures r.graphData.Some? ==> businessData.Obj? && Get(businessData.fields, "graph_data") == r.graphData
    ensures r.error.Some? ==> r == ErrorReport(r.error.value)
    ensures r.error.None? <==> ReportSucceeds(InputFields(businessData))
    ensures r.error.None? ==> r.summary == GetOr(InputFields(businessData), "summary", Str(NoSummary))
    ensures r.error.None? ==>
      r.market == AnalysisWith(GetOr(InputFields(businessData), "market_analysis", Obj([])).fields, ReportDefaults)
    ensures r.error.None? ==>
      && r.successPatterns == FormatListSection(ValidationItems(InputFields(businessData), "success_patterns", NoPatterns), PatternsTitle)
      && r.challenges == FormatListSection(ValidationItems(InputFields(businessData), "challenges", NoChallenges), ChallengesTitle)
  {
    var f := InputFields(businessData);
    ReportOfSucceeds(f);
    match ReportOf(f)
    case Ok(rep) => rep
    case Err(e) => ErrorReport(e)
  }

  /** The `try` body returns a report exactly when it raises nothing, and that report
      reads its summary, market fields and validation lists from the input. */
  lemma ReportOfSucceeds(f: seq<(string, Json)>)
    ensures ReportOf(f).Ok? <==> ReportSucceeds(f)
    ensures ReportOf(f).Ok? ==>
      && ReportOf(f).value.summary == GetOr(f, "summary", Str(NoSummary))
      && ReportOf(f).value.market == AnalysisWith(GetOr(f, "market_analysis", Obj([])).fields, ReportDefaults)
      && ReportOf(f).value.successPatterns == FormatListSection(ValidationItems(f, "success_patterns", NoPatterns), PatternsTitle)
      && ReportOf(f).value.challenges == FormatListSection(ValidationItems(f, "challenges", NoChallenges), ChallengesTitle)
      && ReportOf(f).value.error.None?
  {
  }

  /** `key` is absent or holds a dict. */
  predicate DictOrAbsent(fields: seq<(string, Json)>, key: string) {
    key !in Keys(fields) || Get(fields, key).value.Obj?
  }

  /** A dict input whose nested sections are dicts or absent and whose category walks
      raise nothing gives a report without error. */
  lemma NoErrorOnDicts(businessData: Json)
    requires businessData.Obj?
    requires DictOrAbsent(businessData.fields, "market_analysis")
    requires DictOrAbsent(businessData.fields, "validation_results")
    requires DictOrAbsent(GetOr(businessData.fields, "validation_results", Obj([])).fields, "challenges")
    requires DictOrAbsent(GetOr(businessData.fields, "validation_results", Obj([])).fields, "success_patterns")
    requires CategoryItems(GetOr(businessData.fields, "recommendations", Obj([]))).Ok?
    requires CategoryItems(GetOr(businessData.fields, "best_practices", Obj([]))).Ok?
    ensures GenerateValidationReport(businessData).error.None?
  {
  }

  /** A `market_analysis` that is present but not a dict has no `.get`: the report is
      the fixed error report for `AttributeError`. */
  lemma MarketNotDictRaises(businessData: Json)
    requires businessData.Obj? && "market_analysis" in Keys(businessData.fields)
    requires !Get(businessData.fields, "market_analysis").value.Obj?
    ensures GenerateValidationReport(businessData) == ErrorReport(AttributeError)
  {
  }

  /** A non-dict input is read as `{}`: no error, and every field takes its default. */
  lemma NonDictBusinessData(businessData: Json)
    requires !businessData.Obj?
    ensures GenerateValidationReport(businessData) == Report(
      Str(NoSummary),
      ReportDefaults,
      ListSection(PatternsTitle, Arr([Str(NoPatterns)])),
      ListSection(ChallengesTitle, Arr([Str(NoChallenges)])),
      ListSection(RecommendationsTitle, Arr([Str(NoRecommendations)])),
      ListSection(PracticesTitle, Arr([Str(NoPractices)])),
      None,
      None)
  {
    assert In("categories", Obj([])) == Ok(false);
  }

  /** Where the report's recommendations come from. */
  lemma ReportRecommendations(f: seq<(string, Json)>)
    requires ReportOf(f).Ok?
    ensures CategoryItems(GetOr(f, "recommendations", Obj([]))).Ok?
    ensures ReportOf(f).value.recommendations.items
      == OrPlaceholder(CategoryItems(GetOr(f, "recommendations", Obj([]))).value, NoRecommendations)
  {
    var ma := GetOr(f, "market_analysis", Obj([]));
    var vr := GetOr(f, "validation_results", Obj([]));
    assert ma.Obj? && vr.Obj?;
    assert GetOr(vr.fields, "challenges", Obj([])).Obj?;
    assert GetOr(vr.fields, "success_patterns", Obj([])).Obj?;
    var recs := CategoryItems(GetOr(f, "recommendations", Obj([])));
    assert recs.Ok?;
    var items := OrPlaceholder(recs.value, NoRecommendations);
    assert ReportOf(f).value.recommendations == FormatListSection(items, RecommendationsTitle);
    assert Truthy(items);
  }

  /** The best practices are collected by the same category walk as the recommendations. */
  lemma ReportBestPractices(f: seq<(string, Json)>)
    requires ReportOf(f).Ok?
    ensures CategoryItems(GetOr(f, "best_practices", Obj([]))).Ok?
    ensures ReportOf(f).value.bestPractices.items
      == OrPlaceholder(CategoryItems(GetOr(f, "best_practices", Obj([]))).value, NoPractices)
  {
    var ma := GetOr(f, "market_analysis", Obj([]));
    var vr := GetOr(f, "validation_results", Obj([]));
    assert ma.Obj? && vr.Obj?;
    assert GetOr(vr.fields, "challenges", Obj([])).Obj?;
    assert GetOr(vr.fields, "success_patterns", Obj([])).Obj?;
    assert CategoryItems(GetOr(f, "recommendations", Obj([]))).Ok?;
    var practices := CategoryItems(GetOr(f, "best_practices", Obj([])));
    assert practices.Ok?;
    var items := OrPlaceholder(practices.value, NoPractices);
    assert ReportOf(f).value.bestPractices == FormatListSection(items, PracticesTitle);
    assert Truthy(items);
  }

  /** The report's recommendations are the concatenated category `items` lists when
      those are non-empty, the single placeholder otherwise; the recommendations dict
      may hold other keys besides `categories`. */
  lemma RecommendationsAreConcatenation(f: seq<(string, Json)>, rec: seq<(string, Json)>, cats: seq<(string, Json)>)
    requires ReportOf(f).Ok?
    requires GetOr(f, "recommendations", Obj([])) == Obj(rec) && Get(rec, "categories") == Some(Obj(cats))
    requires forall i :: 0 <= i < |cats| ==> ListCategory(cats[i].1)
    ensures ListItems(cats) != [] ==> ReportOf(f).value.recommendations.items == Arr(ListItems(cats))
    ensures ListItems(cats) == [] ==>
      ReportOf(f).value.recommendations.items == Arr([Str(NoRecommendations)])
  {
    RecommendationsFromCategories(f, rec, cats);
    ReportRecommendations(f);
  }

  lemma RecommendationsFromCategories(f: seq<(string, Json)>, rec: seq<(string, Json)>, cats: seq<(string, Json)>)
    requires GetOr(f, "recommendations", Obj([])) == Obj(rec) && Get(rec, "categories") == Some(Obj(cats))
    requires forall i :: 0 <= i < |cats| ==> ListCategory(cats[i].1)
    ensures CategoryItems(GetOr(f, "recommendations", Obj([]))) == Ok(ListItems(cats))
  {
    CategoriesOf(rec, cats);
    ItemsAreConcatenation(cats);
  }

  /** A dict whose `categories` entry is a dict yields the items of those categories,
      whatever other keys it holds. */
  lemma CategoriesOf(rec: seq<(string, Json)>, cats: seq<(string, Json)>)
    requires Get(rec, "categories") == Some(Obj(cats))
    ensures CategoryItems(Obj(rec)) == ItemsOfCategories(cats)
  {
  }

  // ---------------------------------------------------------------- format_business_plan_section

  /** The bullet prefix as the source file spells it: the UTF-8 bytes of a bullet read
      as Windows-1252, three characters, then a space. */
  const Bullet: string := "\U{e2}\U{20ac}\U{a2} "

  predicate IsAsciiLetter(c: char) { IsAsciiUpper(c) || IsAsciiLower(c) }

  function UpperChar(c: char): (r: char)
    ensures !IsAsciiLower(r)
    ensures IsAsciiLower(c) ==> IsAsciiUpper(r) && r as int == c as int - 32
    ensures !IsAsciiLower(c) ==> r == c
  {
    if IsAsciiLower(c) then (c as int - 32) as char else c
  }

  /** Whether position `i` of `s` starts a word for `str.title()`: no letter before it. */
  predicate WordStart(s: string, i: int)
    requires 0 <= i < |s|
  {
    i == 0 || !IsAsciiLetter(s[i - 1])
  }

  /** `str.title()`: a letter is upper-cased at the start of a word and lower-cased
      inside one; other characters are kept. */
  function Title(s: string): (r: string)
    ensures |r| == |s|
    ensures forall i :: 0 <= i < |s| ==> (IsAsciiLetter(r[i]) <==> IsAsciiLetter(s[i]))
    ensures forall i :: 0 <= i < |s| && !IsAsciiLetter(s[i]) ==> r[i] == s[i]
    ensures forall i :: 0 <= i < |s| && IsAsciiLetter(s[i]) && WordStart(s, i) ==> IsAsciiUpper(r[i])
    ensures forall i :: 0 <= i < |s| && IsAsciiLetter(s[i]) && !WordStart(s, i) ==> IsAsciiLower(r[i])
  {
    seq(|s|, i requires 0 <= i < |s| => if WordStart(s, i) then UpperChar(s[i]) else LowerChar(s[i]))
  }

  /** Title-casing twice changes nothing more. */
  lemma TitleIdempotent(s: string)
    ensures Title(Title(s)) == Title(s)
  {
    var t := Title(s);
    forall i | 0 <= i < |s| ensures Title(t)[i] == t[i] {
      assert WordStart(t, i) == WordStart(s, i);
    }
  }

  /** Title-casing changes only the case of letters: each character lower-cases to what
      the original lower-cases to. */
  lemma TitleKeepsLetters(s: string)
    ensures forall i :: 0 <= i < |s| ==> LowerChar(Title(s)[i]) == LowerChar(s[i])
  {
    var t := Title(s);
    forall i | 0 <= i < |s| ensures LowerChar(t[i]) == LowerChar(s[i]) {
      CaseOnly(s[i]);
      assert t[i] == if WordStart(s, i) then UpperChar(s[i]) else LowerChar(s[i]);
    }
  }

  /** Upper- and lower-casing a character agree once lower-cased. */
  lemma CaseOnly(c: char)
    ensures LowerChar(UpperChar(c)) == LowerChar(c)
    ensures LowerChar(LowerChar(c)) == LowerChar(c)
  {
  }

  /** The heading for a key: underscores become spaces, then title case. */
  function Heading(key: string): string {
    Title(Replace(key, "_", " "))
  }

  /** The lines one `(key, value)` entry adds: a list gives a heading and one bullet per
      element, anything else one heading line holding the value. */
  function EntryLines(key: string, value: Json, show: Json -> string): (r: seq<string>)
    ensures |r| == (if value.Arr? then 1 + |value.items| else 1)
    ensures value.Arr? ==> r[0] == "\n" + Heading(key) + ":"
    ensures value.Arr? ==> forall j :: 0 <= j < |value.items| ==> r[1 + j] == Bullet + show(value.items[j])
    ensures !value.Arr? ==> r == ["\n" + Heading(key) + ": " + show(value)]
  {
    if value.Arr? then
      ["\n" + Heading(key) + ":"]
        + seq(|value.items|, j requires 0 <= j < |value.items| => Bullet + show(value.items[j]))
    else ["\n" + Heading(key) + ": " + show(value)]
  }

  function PlanLines(fields: seq<(string, Json)>, show: Json -> string): seq<string>
    decreases |fields|
  {
    if fields == [] then []
    else PlanLines(fields[..|fields| - 1], show) + EntryLines(fields[|fields| - 1].0, fields[|fields| - 1].1, show)
  }

  /** `format_business_plan_section`, as a specification; `show` is Python's `str()`. */
  function PlanSection(data: Json, title: string, show: Json -> string): string {
    if data.Obj? then Join([title + ":"] + PlanLines(data.fields, show), "\n")
    else title + ":\n" + show(data)
  }

  /** The number of lines a dict section has besides its "title:" header. */
  function LineCount(fields: seq<(string, Json)>): nat
    decreases |fields|
  {
    if fields == [] then 0
    else (if fields[0].1.Arr? then 1 + |fields[0].1.items| else 1) + LineCount(fields[1..])
  }

  lemma {:induction false} LineCountSnoc(fields: seq<(string, Json)>)
    requires fields != []
    ensures LineCount(fields) == LineCount(fields[..|fields| - 1])
      + (if fields[|fields| - 1].1.Arr? then 1 + |fields[|fields| - 1].1.items| else 1)
    decreases |fields|
  {
    if |fields| > 1 {
      LineCountSnoc(fields[1..]);
      assert fields[1..][..|fields| - 2] == fields[..|fields| - 1][1..];
    }
  }

  /** A dict section has one line per non-list entry and a heading plus one bullet line
      per element for each list entry. */
  lemma {:induction false} PlanLinesCount(fields: seq<(string, Json)>, show: Json -> string)
    ensures |PlanLines(fields, show)| == LineCount(fields)
    decreases |fields|
  {
    if fields != [] {
      PlanLinesCount(fields[..|fields| - 1], show);
      LineCountSnoc(fields);
    }
  }

  lemma PlanLinesStep(fields: seq<(string, Json)>, i: nat, show: Json -> string)
    requires i < |fields|
    ensures PlanLines(fields[..i + 1], show) == PlanLines(fields[..i], show) + EntryLines(fields[i].0, fields[i].1, show)
  {
    assert fields[..i + 1][..i] == fields[..i];
  }

  /** The loop step regrouped: proved apart from the method, whose context makes the
      solver's search for this regrouping slow. */
  lemma AppendAssoc(before: seq<string>, after: seq<string>, entry: seq<string>, head: seq<string>, lines: seq<string>)
    requires before == head + lines && after == before + entry
    ensures after == head + (lines + entry)
  {
  }

  /** One step of the loop of `format_business_plan_section`: the lines of one entry are
      appended to `sections`. */
  method AppendEntry(sections: seq<string>, key: string, value: Json, show: Json -> string) returns (r: seq<string>)
    ensures r == sections + EntryLines(key, value, show)
  {
    if value.Arr? {
      r := sections + ["\n" + Heading(key) + ":"];
      r := r + seq(|value.items|, j requires 0 <= j < |value.items| => Bullet + show(value.items[j]));
    } else {
      r := sections + ["\n" + Heading(key) + ": " + show(value)];
    }
  }

  /** `format_business_plan_section` as the source writes it: a header line, then the
      lines of each entry appended in turn, joined with newlines. */
  method FormatBusinessPlanSection(data: Json, title: string, show: Json -> string) returns (r: string)
    ensures r == PlanSection(data, title, show)
    ensures !data.Obj? ==> r == title + ":\n" + show(data)
  {
    if !data.Obj? {
      return title + ":\n" + show(data);
    }
    var fields := data.fields;
    var sections := [title + ":"];
    for i := 0 to |fields|
      invariant sections == [title + ":"] + PlanLines(fields[..i], show)
    {
      PlanLinesStep(fields, i, show);
      ghost var before := sections;
      var (key, value) := fields[i];
      sections := AppendEntry(sections, key, value, show);
      AppendAssoc(before, sections, EntryLines(key, value, show), [title + ":"], PlanLines(fields[..i], show));
    }
    assert fields[..|fields|] == fields;
    r := Join(sections, "\n");
  }
}
