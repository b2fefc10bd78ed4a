# Launcher core, modelled in Dafny

Launcher is a business-idea validation service. The user types an idea into a React page.
A Flask back end looks the idea up in a curated table of business mappings. When the
lookup finds nothing, it assembles a report from scraped data and a language model's
reply. The page then shows the report with trend charts, sample data and a paginated
list.

This project models the deterministic logic under that glue. Each source file becomes
one Dafny module:

- `BusinessMappings` (`backend/business_mappings.py`):
  - `normalize_idea`, with its fixed suffix order and separator rewriting;
  - the staged key search of `get_business_mapping`: exact key, first partial match in
    table order, close match, synonym variants, then the best-ratio key;
  - `get_similar_business_ideas`.
- `Analyzer` (`backend/analyzer.py`):
  - key-phrase extraction and keyword bucketing of success stories;
  - the market-analysis and list-section formatting with their defaults and placeholders;
  - the validation report, including its exception path;
  - the text layout of a business-plan section.
- `Scraper` (`backend/scraper.py`):
  - related-query bucketing;
  - the ordered recommendation rules;
  - competitor placeholders and the integer fallback trend series;
  - the news-relevance filter and the user-context block of `gather_business_data`.
- `LlmService` (`backend/llm_service.py`): the section parser of `generate_insights`
  and its fixed fallback.
- `App` (`backend/app.py`):
  - the input checks of `register` and of the three idea endpoints;
  - the summary defaults;
  - the chart collection of `generate_plan`;
  - the chart attachment of `generate_business_model`.
- `IdeaValidatorPage` (`frontend/src/pages/IdeaValidator.jsx`):
  - `hashString` and the list-key choice;
  - the trend datasets;
  - the sample-data lookup and the fallback between server and sample lists;
  - the `showSample` decision.
- `Pagination` (`frontend/src/components/Pagination.jsx`): the windowed page list and
  the button conditions.

Three support modules are shared:

- `Common`: `Option`, subsequences and filtering.
- `Strings`: Python string operations (`lower`, `replace`, `strip`, `split`, `in`).
- `Json`: JSON values, Python truthiness, `in` and `dict.get`, and the exception kinds
  the handlers can raise.

Python dicts are ordered sequences of key/value pairs, because the source depends on
insertion order. Loops that build a value by appending are methods, each proved equal
to a specification function. The properties are proved about those functions.

## Model

| member | source | states |
|---|---|---|
| BusinessMappings.StripSuffixes | backend/business_mappings.py:1091-1093 | the suffix loop only ever removes a tail: the result is a prefix of the lower-cased idea |
| BusinessMappings.DropSuffix | backend/business_mappings.py:1092-1093 | one turn of the loop removes the suffix exactly when the text ends with it, and otherwise changes nothing |
| BusinessMappings.Normalize | backend/business_mappings.py:1088-1102 | a normalised idea contains no space, no `-`, no `&` and no upper-case ASCII letter |
| BusinessMappings.NormalizedChars | backend/business_mappings.py:1094-1101 | the replace chain removes spaces, dashes and ampersands, and brings no upper-case letter back |
| BusinessMappings.NormalizeIdea | backend/business_mappings.py:1088-1102 | the loop that reassigns `idea` computes `Normalize` and so keeps its character guarantees |
| BusinessMappings.SeparatorBecomesUnderscore | backend/business_mappings.py:1094-1101 | `-`, `_` or a single space between two plain words comes out as `_` |
| BusinessMappings.AmpersandBecomesAnd | backend/business_mappings.py:1094-1101 | `&` between two plain words becomes `and` |
| BusinessMappings.SuffixWordDropped | backend/business_mappings.py:1091-1093 | a plain word followed by any one of the five suffixes normalises to that word ("x app" gives "x") |
| BusinessMappings.SuffixTestedOnce | backend/business_mappings.py:1091-1093 | each suffix is tested once: "x app app" loses only one " app" and gives "x_app" |
| BusinessMappings.SuffixOrderBoth | backend/business_mappings.py:1091-1093 | " brand" is tested after " app", so "x brand app" loses both words |
| BusinessMappings.SuffixOrderOne | backend/business_mappings.py:1091-1093 | in "x app brand" the " app" is not at the end when its turn comes, so the result is "x_app" |
| BusinessMappings.StripSuffixesSkip | backend/business_mappings.py:1091-1093 | when the first k suffixes do not match, the loop's result is decided by the suffixes from k on |
| BusinessMappings.NoSpaceNoSuffix | backend/business_mappings.py:1091-1093 | a text without a space ends with no suffix, so the loop leaves it alone (a dash is not a suffix separator) |
| BusinessMappings.FirstPartial | backend/business_mappings.py:1115-1117 | the partial stage returns the first key, in table order, whose normalised form contains the idea or is contained in it; it returns nothing only when no key matches |
| BusinessMappings.FirstSynonym | backend/business_mappings.py:1123-1133 | the synonym stage returns a key only on an exact hit of a variant, i.e. one word deleted everywhere and `_` stripped at both ends; otherwise no variant is a key |
| BusinessMappings.FromKeys | backend/business_mappings.py:1119-1121 | a difflib stage yields a result exactly when its answer is present and names a table key, and that result is the answer itself |
| BusinessMappings.MatchKey | backend/business_mappings.py:1110-1140 | an exact key wins before any other stage; otherwise the first partial match wins; no result means the exact, partial, close, synonym and best stages all failed |
| BusinessMappings.SynonymStage | backend/business_mappings.py:1123-1133 | when the exact, partial and close stages fail, the first variant that is a key is returned |
| BusinessMappings.CloseStage | backend/business_mappings.py:1118-1121 | with no exact and no partial match, a close-match answer that names a key is the result |
| BusinessMappings.BestStage | backend/business_mappings.py:1130-1141 | when the exact, partial and close stages and every synonym variant fail, the best-ratio answer decides, and only with a key |
| BusinessMappings.FirstSynonymIsFirst | backend/business_mappings.py:1130-1133 | the synonym variants are tried in word order and the earliest hit is returned |
| BusinessMappings.EmptyIdeaMatchesFirstKey | backend/business_mappings.py:1110-1117 | an idea that normalises to the empty string matches the first key of a non-empty table by the partial stage |
| BusinessMappings.DashNormalisesToEmpty | backend/business_mappings.py:1088-1102 | the idea "-" normalises to the empty string |
| BusinessMappings.LookupMapping | backend/business_mappings.py:1113 | the mapping returned for a key is the one the table stores under it |
| BusinessMappings.GetBusinessMapping | backend/business_mappings.py:1104-1141 | a mapping is returned iff the staged search picks a key, and it is that key's mapping |
| BusinessMappings.GetSimilarBusinessIdeas | backend/business_mappings.py:1143-1158 | the loop that appends similar keys and keeps three computes `SimilarIdeas` and returns at most three keys |
| BusinessMappings.SimilarIdeasProperties | backend/business_mappings.py:1147-1158 | the result has at most 3 keys, in table order, never the lower-cased trimmed idea, and each key contains the idea, is contained in it or contains one of its words; with fewer than 3, every similar key is included |
| Analyzer.CleanText | backend/analyzer.py:13 | the cleaned text holds only word characters and whitespace, and no upper-case letter |
| Analyzer.WordsAreWordChars | backend/analyzer.py:13-15 | every word of the cleaned text consists of word characters only |
| Analyzer.ExtractKeyPhrases | backend/analyzer.py:10-18 | no duplicates; a word is in the result iff it is a cleaned word longer than 3 and not a stop word |
| Analyzer.AnalyzeSuccessPatterns | backend/analyzer.py:20-40 | each bucket lists the stories that mention one of its keywords, in input order |
| Analyzer.BucketsAreOrderedSelections | backend/analyzer.py:28-38 | each bucket is an order-preserving subsequence of the stories; a story is in a bucket iff it mentions a keyword, so it may be in several buckets or none |
| Analyzer.FormatMarketAnalysis | backend/analyzer.py:42-49 | a dict yields each field or the default "Not available"; a non-dict raises |
| Analyzer.AnalysisWith | backend/analyzer.py:45-48 | each field is the dict's value when the key is present and the default otherwise |
| Analyzer.FormatListSection | backend/analyzer.py:51-61 | the title is kept; truthy items are kept unchanged, falsy items become the single "No data available" |
| Analyzer.Iterate | backend/analyzer.py:88 | `extend` over a list gives its items; over a string or dict it gives one element per character or key; over None, a bool or a number it raises |
| Analyzer.Then | backend/analyzer.py:86-88 | an exception stops the loop; otherwise the items accumulate in order |
| Analyzer.ItemsAreConcatenation | backend/analyzer.py:85-88 | when every dict category's `items` is a list, the result is the concatenation, in category order, of the `items` of the dict categories that have them |
| Analyzer.ErrorPersists | backend/analyzer.py:86-88 | a category whose `items` cannot be iterated makes the whole collection raise |
| Analyzer.CollectCategoryItems | backend/analyzer.py:83-88 | the extend loop computes `CategoryItems`, and a dict without categories gives no items |
| Analyzer.OrPlaceholder | backend/analyzer.py:118 | `items or [placeholder]` is never empty and keeps non-empty items |
| Analyzer.GenerateValidationReport | backend/analyzer.py:63-163 | the report has no error iff every value `.get` is called on is a dict and neither category walk raises; then the summary, the four market fields and the challenge and success-pattern lists come from the input with their defaults, and `graph_data` is copied iff the input dict has it; all four section titles are fixed and every section's items are truthy; an exception gives the fixed error report |
| Analyzer.ReportOfSucceeds | backend/analyzer.py:64-116 | the `try` body returns a report iff no `.get` receiver is a non-dict and no category walk raises, and that report reads summary, market fields and validation lists from the input |
| Analyzer.NoErrorOnDicts | backend/analyzer.py:64-116 | a dict whose nested sections are dicts or absent and whose category walks raise nothing gives a report without error |
| Analyzer.MarketNotDictRaises | backend/analyzer.py:71-72 | a present `market_analysis` that is not a dict raises on `.get`, giving the fixed `AttributeError` report |
| Analyzer.NonDictBusinessData | backend/analyzer.py:66-75 | non-dict business data is treated as `{}`: every market field takes its default and every list its placeholder |
| Analyzer.ReportRecommendations | backend/analyzer.py:83-88 | whenever the `try` body succeeds, the walk over the recommendation categories succeeds and the report's recommendations are its items, or the "No specific recommendations available" placeholder when there are none |
| Analyzer.ReportBestPractices | backend/analyzer.py:91-96 | whenever the `try` body succeeds, the walk over the best-practice categories succeeds and the report's best practices are its items, or the "No specific best practices available" placeholder when there are none |
| Analyzer.RecommendationsAreConcatenation | backend/analyzer.py:83-88 | for any recommendations dict whose `categories` is a dict of list-valued categories, the report's recommendations are the concatenated category items, or the placeholder when there are none |
| Analyzer.CategoriesOf | backend/analyzer.py:85-86 | any dict whose `categories` entry is a dict yields the items of those categories, whatever other keys it holds |
| Analyzer.UpperChar | backend/analyzer.py:171 | a lower-case ASCII letter becomes the upper-case letter 32 code points below it; every other character is unchanged |
| Strings.LowerChar | backend/analyzer.py:13 | `lower()` turns an upper-case ASCII letter into the lower-case letter 32 code points above it and leaves every other character unchanged |
| Analyzer.Title | backend/analyzer.py:171 | `title()` keeps the length and non-letters, upper-cases the letter that starts a word and lower-cases the other letters |
| Analyzer.TitleIdempotent | backend/analyzer.py:171 | title-casing twice equals title-casing once |
| Analyzer.TitleKeepsLetters | backend/analyzer.py:171 | title-casing changes only the case of letters: every character lower-cases to what the original character lower-cases to |
| Analyzer.EntryLines | backend/analyzer.py:169-174 | a list value gives a heading line and one bullet line per element; any other value gives one "heading: value" line |
| Analyzer.PlanLinesCount | backend/analyzer.py:168-174 | the section has one line per scalar entry and 1 + n lines per list entry of length n |
| Analyzer.FormatBusinessPlanSection | backend/analyzer.py:165-176 | the append loop computes `PlanSection`; a non-dict gives "title:\ndata" |
| Scraper.Classify | backend/scraper.py:672-680 | precedence is price, then comparison, then feature, then other, by substring tests on the lower-cased query |
| Scraper.Bucket | backend/scraper.py:671-680 | a bucket holds the original texts of exactly the queries of its category, each as often as it occurs in the input, in input order |
| Scraper.BucketsPartition | backend/scraper.py:671-680 | every query lands in exactly one bucket, so the four bucket sizes add up to the number of queries |
| Scraper.CategorizedEntries | backend/scraper.py:682 | the result keeps the non-empty buckets in dict order, and a category with no query is absent |
| Scraper.DropEmpty | backend/scraper.py:682 | the comprehension keeps exactly the non-empty entries, in order |
| Scraper.CategorizeQueries | backend/scraper.py:662-682 | the append loop computes the non-empty buckets |
| Scraper.TrendRecommendations | backend/scraper.py:690-695 | "High" and "Low" each add their two fixed recommendations; any other value adds none |
| Scraper.SentimentRecommendations | backend/scraper.py:698-703 | "positive" and "negative" each add their two fixed recommendations; any other value adds none |
| Scraper.CompetitorRule | backend/scraper.py:707-711 | "strong growth" takes precedence over "decline"; the recommendation names the insight's first word |
| Scraper.FinancialRule | backend/scraper.py:715-719 | "revenue growth" takes precedence over "stock price"; the recommendation names the insight's first word |
| Scraper.HasFirstWord | backend/scraper.py:709 | an insight that matched a rule phrase has a first word, so `split()[0]` does not raise |
| Scraper.RuleOutputs | backend/scraper.py:706-719 | each insight adds at most one recommendation |
| Scraper.RecommendationsBound | backend/scraper.py:687-721 | trend entries come first; there are at most four fixed entries plus one per insight |
| Scraper.GenerateRecommendations | backend/scraper.py:684-721 | the four append stages produce trend, then sentiment, then competitor-derived, then financial-derived entries |
| Scraper.AppendRuleOutputs | backend/scraper.py:706-719 | one insight loop appends the rule's answers, in insight order, to what is already there |
| Scraper.ExtractCompetitorPatterns | backend/scraper.py:754-770 | the patterns are always the placeholders "Not available" with empty lists |
| Scraper.AnalyzeCompetitors | backend/scraper.py:571-604 | empty competitor data gives the fixed "Limited competitor data available" defaults; otherwise the placeholders plus the growth insights |
| Scraper.FallbackSeries | backend/scraper.py:83 | the fallback series has 12 values, each a multiple of 5 in [50, 95] |
| Scraper.FallbackSeriesShape | backend/scraper.py:83 | the series climbs from 50 by 5 up to 95, then wraps to 50 and 55 |
| Scraper.FallbackTrends | backend/scraper.py:82-84 | each of the first five terms, and no other, gets the fallback series |
| Scraper.RelevantArticles | backend/scraper.py:353-358 | an article is kept iff some key term occurs in its lower-cased title, and a kept article appears as often as in the input |
| Scraper.RelevantArticlesOrdered | backend/scraper.py:354-358 | the kept articles keep their input order |
| Scraper.FilterRelevantNews | backend/scraper.py:353-358 | the append loop computes the relevant articles |
| Scraper.NewsSummary | backend/scraper.py:360-364 | no relevant news gives the fixed message; reading a missing title raises; otherwise the summary is "Relevant news: " and the titles of the relevant articles joined by "; " |
| Scraper.NewsSummaryDefined | backend/scraper.py:353-364 | without the empty key term, every relevant article has a title, so the summary does not raise |
| Scraper.ContextLines | backend/scraper.py:389-397 | one line per non-empty field, in the fixed order target market, location, budget, business model; each line is the field's label followed by its value |
| Scraper.UserContext | backend/scraper.py:389-398 | the append loop computes the lines joined by newlines, and all-empty fields give the empty string |
| LlmService.Header | backend/llm_service.py:73-98 | each field is tested by its own non-empty header |
| LlmService.FirstHeader | backend/llm_service.py:72-98 | a section updates the field of the first header of the if/elif chain that it contains, and no field when it contains none |
| LlmService.ListLines | backend/llm_service.py:84-104 | list items are the stripped lines, in order, with blank lines dropped; each non-blank stripped line is kept as often as it occurs; no item is blank or has outer whitespace |
| LlmService.Companies | backend/llm_service.py:77-83 | every example company gets the description "Similar business model" |
| LlmService.Apply | backend/llm_service.py:72-104 | a section without a header changes nothing |
| LlmService.ApplyKeepsOtherFields | backend/llm_service.py:72-104 | a section changes only the field its first header names |
| LlmService.ApplySetsFromSection | backend/llm_service.py:73-104 | the value a section gives its field depends on that section alone |
| LlmService.ParseInsights | backend/llm_service.py:61-106 | the loop over the blank-line sections computes `Parse` |
| LlmService.NoHeaderSections | backend/llm_service.py:62-72 | sections without headers leave every field at its default |
| LlmService.NoHeaderGivesDefaults | backend/llm_service.py:61-69 | a reply that mentions no header parses to category "Unknown", an empty description and four empty lists |
| LlmService.LastSectionWins | backend/llm_service.py:72-104 | a field takes its value from the last section that names it; earlier sections are overwritten |
| LlmService.UnnamedFieldKeepsDefault | backend/llm_service.py:62-72 | a field that no section names keeps its default |
| LlmService.GeneratedText | backend/llm_service.py:56-57 | text is produced only for a non-empty JSON list whose first element is a dict with a string `generated_text` (missing means "") |
| LlmService.InsightsFor | backend/llm_service.py:55-117 | any failure gives the fallback with "Unable to generate insights at this time."; otherwise the parsed text |
| LlmService.GenerateInsights | backend/llm_service.py:55-117 | the handler computes `InsightsFor` |
| App.MissingFields | backend/app.py:110-111 | the missing fields are reported in the order email, password, name, each iff absent; `in` on None, a bool or a number raises |
| App.RegisterCheck | backend/app.py:107-115 | falsy data gives "No data provided"; missing fields give the joined message, and no other 400 is possible; the request goes on iff the body is a dict with all three keys; a body on which `in` raises, or a string or list that holds all three names, raises `TypeError` and gets status 500 |
| App.RegisterReportsInOrder | backend/app.py:110-113 | a body with only a name is told "Missing required fields: email, password" |
| App.IdeaCheck | backend/app.py:180-185 | "No idea provided" iff the body is falsy or lacks `idea`; "Empty idea provided" iff the idea is a string of whitespace, and no other 400 is possible; the idea goes on iff it is a string with a non-space character; a body on which `in` raises or that is not a dict raises `TypeError`, and a non-string idea raises `AttributeError` on `.strip()`, both giving status 500 |
| App.WhitespaceIdeaRejected | backend/app.py:184-185 | an idea made only of whitespace is rejected as empty |
| App.OrEmpty | backend/app.py:192-194 | `x or []` is empty iff the field is missing or empty, and otherwise equals the field |
| App.SummaryOf | backend/app.py:243-246 | the summary is `''` and each list is `[]` when the mapping field is falsy |
| App.IdeaReportOf | backend/app.py:189-197 | the validation answer carries the summary fields, and its charts are the market data or `{}` |
| App.FieldRefsIff | backend/app.py:233-235 | a key is referenced by a section iff some `*_chart` entry of it is a string naming the key |
| App.ChartRefsIff | backend/app.py:231-235 | a key is referenced iff some dict section other than `charts` has a `*_chart` string field naming it |
| App.ChartsForIff | backend/app.py:230-237 | a key is in `plan['charts']` iff it is referenced and market data has it; its value is market data's entry; missing references are skipped |
| App.ResolveSnoc | backend/app.py:236-237 | one more reference adds its entry only when market data has it |
| App.AddFieldCharts | backend/app.py:233-237 | the inner loop adds the entries of one section's references |
| App.CollectCharts | backend/app.py:230-237 | the nested loops compute the charts `ChartsFor` describes |
| App.PlanFor | backend/app.py:227-247 | a plan is answered iff the mapping has a non-empty template; it is that template with the collected charts, the reference plans or `[]`, the mapping's example companies and the summary defaults |
| App.CanvasFor | backend/app.py:271-285 | a canvas is answered iff the mapping has a non-empty one; it is the mapping's canvas with its example companies and the summary defaults, and carries `charts`, equal to the market data, iff market data is non-empty |
| IdeaValidatorPage.ToInt32 | frontend/src/pages/IdeaValidator.jsx:35 | `\|= 0` gives the signed 32-bit integer congruent to its operand modulo 2^32 |
| IdeaValidatorPage.ShiftStep | frontend/src/pages/IdeaValidator.jsx:34-35 | `((h << 5) - h) + c` then `\|= 0` equals 31·h + c wrapped to 32 bits |
| IdeaValidatorPage.Units | frontend/src/pages/IdeaValidator.jsx:33 | `charCodeAt` sees a character below U+10000 as itself and any other as its surrogate pair |
| IdeaValidatorPage.Hash | frontend/src/pages/IdeaValidator.jsx:30-37 | the hash is always a signed 32-bit integer |
| IdeaValidatorPage.HashIsWrappedPolynomial | frontend/src/pages/IdeaValidator.jsx:32-36 | the hash equals the `String.hashCode` polynomial, the sum of u[i]·31^(n-1-i), wrapped to signed 32 bits |
| IdeaValidatorPage.HashString | frontend/src/pages/IdeaValidator.jsx:29-38 | the loop computes the hash of the string's UTF-16 code units, and the empty string hashes to 0 |
| IdeaValidatorPage.ListKey | frontend/src/pages/IdeaValidator.jsx:73 | a string item's key is the hash of `item + '-' + index`; any other item's key is its index |
| IdeaValidatorPage.AllKeywordsIff | frontend/src/pages/IdeaValidator.jsx:88 | a keyword is collected iff some date's row has it |
| IdeaValidatorPage.Distinct | frontend/src/pages/IdeaValidator.jsx:88 | `Array.from(new Set(...))` keeps each element of the input exactly once and adds nothing; elements are ordered by the position of their first occurrence in the input |
| IdeaValidatorPage.Hue | frontend/src/pages/IdeaValidator.jsx:92-93 | the hue `(idx * 70) % 360` lies in [0, 360) |
| IdeaValidatorPage.DatasetFor | frontend/src/pages/IdeaValidator.jsx:89-95 | a dataset has one value per date, aligned with the labels, with null for a missing keyword |
| IdeaValidatorPage.TrendDatasets | frontend/src/pages/IdeaValidator.jsx:88-95 | the i-th dataset is built for the i-th distinct keyword with hue index i |
| IdeaValidatorPage.OneDatasetPerKeyword | frontend/src/pages/IdeaValidator.jsx:87-91 | a keyword of any date labels exactly one dataset, no two datasets share a keyword, and the values line up with the dates |
| IdeaValidatorPage.TrendsSection | frontend/src/pages/IdeaValidator.jsx:85-115 | the chart is drawn iff the trends object has a date; its labels are the dates |
| IdeaValidatorPage.SampleFor | frontend/src/pages/IdeaValidator.jsx:896 | sample data is found iff the lower-cased idea is exactly a sample key |
| IdeaValidatorPage.SampleLookupIgnoresCase | frontend/src/pages/IdeaValidator.jsx:896 | ideas that differ only in ASCII letter case find the same sample |
| IdeaValidatorPage.SectionItems | frontend/src/pages/IdeaValidator.jsx:1092-1127 | a section shows the server list when it is non-empty, else the sample list, else nothing; it never shows an empty list |
| IdeaValidatorPage.SummaryShownIff | frontend/src/pages/IdeaValidator.jsx:1062 | the cleaned summary is shown iff it is at least 100 code units long and mentions none of the prompt phrases, ignoring ASCII case |
| Pagination.Pages | frontend/src/components/Pagination.jsx:11 | the full list is pages 1 to totalPages, in order |
| Pagination.RenderPageNumbers | frontend/src/components/Pagination.jsx:14-38 | up to five pages are listed in full; otherwise there is a start window, an end window or a middle window around the current page, with ellipses |
| Pagination.WindowShape | frontend/src/components/Pagination.jsx:17-37 | with more than five pages the list starts at 1 and ends at totalPages, has at most 7 entries, strictly increasing numbers within range and no two adjacent ellipses |
| Pagination.CurrentPageShown | frontend/src/components/Pagination.jsx:14-38 | the current page, when in range, is always among the buttons |
| Pagination.PreviousClick | frontend/src/components/Pagination.jsx:49-50 | Previous is disabled iff the current page is 1; otherwise it requests the page before |
| Pagination.NextClick | frontend/src/components/Pagination.jsx:102-103 | Next is disabled iff the current page is the last; otherwise it requests the page after |
| Pagination.PageClick | frontend/src/components/Pagination.jsx:81 | clicking an ellipsis never changes the page; clicking a number requests that page |
| Pagination.ClicksStayInRange | frontend/src/components/Pagination.jsx:14-38 | every page a button of the list can request lies between 1 and totalPages |

## Left out

- Unicode case: `lower()`, `title()`, `toLowerCase()` and the regex class `\w` are modelled for ASCII only. Non-ASCII letters are treated as neither upper- nor lower-case.
- The difflib stages of `get_business_mapping` (`get_close_matches` with cutoff 0.7 and the best `SequenceMatcher` ratio above 0.5) are oracle parameters; only their key-valued answers are used.
- The `BUSINESS_MAPPINGS` and `sampleData` tables are parameters: an ordered key/value sequence, not their content.
- `BusinessMappings.BusinessMapping` keeps only the fields the handlers read. The fields of `CompanyInfo` are opaque JSON values.
- `extract_key_phrases` returns `list(set(...))`, whose order Python does not fix. The model keeps first-appearance order and proves only order-free properties about it.
- nltk tokenisation and stop words (`extract_key_terms`, `extract_themes`): the key-term set is an input to the relevance filter.
- `analyze_trends`, `analyze_sentiment`, `analyze_financials`, `calculate_profitability_metrics`, `_generate_fallback_financials` and `extract_trend_insights` are float or pandas analysis. Growth and sentiment labels and the insight lists are inputs.
- Scraper.AnalyzeCompetitors: the growth insights for non-empty data come from parsing percentages as floats, so they are an input.
- Scraper.FallbackTrends: pandas dates, the DataFrame index and `to_dict` are left out; only the term-to-series table is modelled.
- All network clients: NewsData, Finnhub, Hugging Face, Yahoo, Wikipedia, Census and pytrends. The rest of `gather_business_data` is left out, including its Finnhub summary text and the prompt.
- LlmService.GenerateInsights: the prompt and the HTTP request are not modelled. The decoded reply, or `None` for a failed request, is a parameter.
- Exception messages: only the kind of exception is kept (`TypeError`, `AttributeError`, `KeyError`). Analyzer's error report carries the kind instead of `str(e)`.
- Analyzer.FormatBusinessPlanSection: Python's `str()` of a value is a parameter `show`. The bullet is the literal byte sequence the file holds (a mis-encoded "•").
- Analyzer.AnalyzeSuccessPatterns: stories are records with a string title and summary. The `KeyError` of a story without `title` or `summary` and the `str()` of non-string fields in the f-string are not modelled.
- Scraper.CategorizeQueries: queries are given as their `query` strings. The `KeyError` of a query dict without `query` and the `AttributeError` of `.lower()` on a non-string are not modelled.
- Scraper.NewsSummary: a non-string title, on which `.lower()` raises, is not modelled; titles are strings or absent.
- App.RegisterCheck: the e-mail format regex, the duplicate-user query, password hashing, JWT issuance and the database write are not modelled, nor is the login handler.
- `analyzer.generate_business_plan`, `generate_business_model_canvas` and the scraper fallbacks that the handlers call when no mapping is found are outside this model. `PlanFor` and `CanvasFor` answer `None` there.
- App.CollectCharts: `plan['charts']` is itself visited by the loop. Market-data values are lists, so it never contributes a reference, and the model skips that section. A template's own `charts` key is overwritten and so is skipped too. Chart dicts are maps, so Flask's key order in the JSON output is not modelled.
- App.IdeaReportOf: the JSON serialisation of `CompanyInfo` records (`__dict__`) is left out; they are kept as opaque values.
- Flask routing, CORS, `OPTIONS` replies, logging and status codes beyond the 400 checks.
- IdeaValidatorPage.TrendDatasets: JavaScript orders integer-like object keys before other keys. Rows are modelled as key sequences in insertion order, and trend rows that are not objects are not modelled.
- IdeaValidatorPage.SampleFor: inherited `Object.prototype` keys of `sampleData` and non-array server list values are not modelled.
- IdeaValidatorPage.SummaryShownIff: the regex cleaning of the summary is not modelled; the decision takes the already cleaned text.
- All JSX rendering, Chart.js, recharts, MUI and framer-motion, and the other pages and components.
