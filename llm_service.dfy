/** The section parser of `generate_insights`: the model's reply is cut into blank-line
    separated sections, and each section fills at most one field of the insights record,
    chosen by the first header it mentions. A failed request gives a fixed fallback. */
module LlmService {
  import opened Common
  import opened Strings
  import opened Json

  datatype Company = Company(name: string, description: string)

  /** The `insights` dict the parser fills. */
  datatype Insights = Insights(
    category: string,
    description: string,
    exampleCompanies: seq<Company>,
    marketTrends: seq<string>,
    commonChallenges: seq<string>,
    successFactors: seq<string>)

  /** The six fields, in the order the if/elif chain tests their headers. */
  datatype Field = CategoryField | DescriptionField | CompaniesField | TrendsField | ChallengesField | FactorsField

  const CompanyDescription := "Similar business model"
  const FailureDescription := "Unable to generate insights at this time."

  function Header(f: Field): (h: string)
    ensures h != []
  {
    match f
    case CategoryField => "Business Category:"
    case DescriptionField => "Brief Description:"
    case CompaniesField => "Example Companies:"
    case TrendsField => "Market Trends:"
    case ChallengesField => "Common Challenges:"
    case FactorsField => "Success Factors:"
  }

  /** Position of a field's test in the if/elif chain. */
  function Rank(f: Field): nat {
    match f
    case CategoryField => 0
    case DescriptionField => 1
    case CompaniesField => 2
    case TrendsField => 3
    case ChallengesField => 4
    case FactorsField => 5
  }

  /** The starting record, before any section is read. */
  const Defaults := Insights("Unknown", "", [], [], [], [])

  /** The record returned when the request or the reply's shape fails. */
  const Fallback := Insights("Unknown", FailureDescription, [], [], [], [])

  /** The field a section updates: the first header of the chain it contains. */
  function FirstHeader(section: string): (r: Option<Field>)
    ensures r.Some? ==> Contains(section, Header(r.value))
    ensures r.Some? ==> forall g :: Rank(g) < Rank(r.value) ==> !Contains(section, Header(g))
    ensures r.None? <==> forall g :: !Contains(section, Header(g))
  {
    if Contains(section, Header(CategoryField)) then Some(CategoryField)
    else if Contains(section, Header(DescriptionField)) then Some(DescriptionField)
    else if Contains(section, Header(CompaniesField)) then Some(CompaniesField)
    else if Contains(section, Header(TrendsField)) then Some(TrendsField)
    else if Contains(section, Header(ChallengesField)) then Some(ChallengesField)
    else if Contains(section, Header(FactorsField)) then Some(FactorsField)
    else None
  }

  function StripAll(lines: seq<string>): (r: seq<string>)
    ensures |r| == |lines|
    ensures forall i :: 0 <= i < |r| ==> r[i] == Strip(lines[i])
    ensures forall i :: 0 <= i < |r| ==> Trimmed(r[i])
  {
    seq(|lines|, i requires 0 <= i < |lines| => Strip(lines[i]))
  }

  /** No whitespace at either end. */
  predicate Trimmed(s: string) {
    s != [] ==> !IsSpace(s[0]) && !IsSpace(s[|s| - 1])
  }

  predicate NonBlank(s: string) { s != [] }

  const Newline: string := "\n"

  /** `[line.strip() for line in text.split('\n') if line.strip()]`. */
  function ListLines(text: string): (r: seq<string>)
    ensures forall i :: 0 <= i < |r| ==> r[i] != [] && !IsSpace(r[i][0]) && !IsSpace(r[i][|r[i]| - 1])
    ensures IsSubsequence(r, StripAll(Split(text, Newline)))
    ensures var lines := Split(text, Newline);
      forall i :: 0 <= i < |lines| && Strip(lines[i]) != [] ==> Strip(lines[i]) in r
    ensures forall x {:trigger multiset(r)[x]} :: multiset(r)[x] == if x != [] then multiset(StripAll(Split(text, Newline)))[x] else 0
  {
    var lines := Split(text, Newline);
    FilterIsSubsequence(StripAll(lines), NonBlank);
    KeptLinesCounted(lines);
    KeptLinesStripped(lines);
    KeptLinesComplete(lines);
    Filter(StripAll(lines), NonBlank)
  }

  /** Every kept line is a non-empty stripped line. */
  lemma KeptLinesStripped(lines: seq<string>)
    ensures var r := Filter(StripAll(lines), NonBlank);
      forall i :: 0 <= i < |r| ==> r[i] != [] && !IsSpace(r[i][0]) && !IsSpace(r[i][|r[i]| - 1])
  {
    var stripped := StripAll(lines);
    var r := Filter(stripped, NonBlank);
    forall i | 0 <= i < |r| ensures r[i] != [] && !IsSpace(r[i][0]) && !IsSpace(r[i][|r[i]| - 1]) {
      assert r[i] in stripped && NonBlank(r[i]);
      var k :| 0 <= k < |stripped| && stripped[k] == r[i];
      assert Trimmed(stripped[k]);
    }
  }

  /** Every non-blank stripped line is kept as often as it occurs; blank ones never. */
  lemma KeptLinesCounted(lines: seq<string>)
    ensures forall x {:trigger multiset(Filter(StripAll(lines), NonBlank))[x]} ::
      multiset(Filter(StripAll(lines), NonBlank))[x] == if x != [] then multiset(StripAll(lines))[x] else 0
  {
    FilterMultiset(StripAll(lines), NonBlank);
  }

  /** No non-blank line is dropped. */
  lemma KeptLinesComplete(lines: seq<string>)
    ensures forall i :: 0 <= i < |lines| && Strip(lines[i]) != [] ==> Strip(lines[i]) in Filter(StripAll(lines), NonBlank)
  {
    var stripped := StripAll(lines);
    forall i | 0 <= i < |lines| && Strip(lines[i]) != [] ensures Strip(lines[i]) in Filter(stripped, NonBlank) {
      assert stripped[i] == Strip(lines[i]) && NonBlank(stripped[i]);
    }
  }

  /** Every listed name becomes a company entry with the fixed description. */
  function Companies(names: seq<string>): (r: seq<Company>)
    ensures |r| == |names|
    ensures forall i :: 0 <= i < |r| ==> r[i].name == names[i] && r[i].description == CompanyDescription
  {
    seq(|names|, i requires 0 <= i < |names| => Company(names[i], CompanyDescription))
  }

  /** The text after a section's header: `section.split(header)[1].strip()`. */
  function HeaderValue(section: string, f: Field): string
    requires Contains(section, Header(f))
  {
    Strip(AfterFirst(section, Header(f)))
  }

  /** The record with field `f` replaced by the value a section gives it. */
  function SetField(ins: Insights, f: Field, section: string): Insights
    requires Contains(section, Header(f))
  {
    var value := HeaderValue(section, f);
    match f
    case CategoryField => ins.(category := value)
    case DescriptionField => ins.(description := value)
    case CompaniesField => ins.(exampleCompanies := Companies(ListLines(value)))
    case TrendsField => ins.(marketTrends := ListLines(value))
    case ChallengesField => ins.(commonChallenges := ListLines(value))
    case FactorsField => ins.(successFactors := ListLines(value))
  }

  /** The defaults with only field `f` taken from `ins`: what `ins` says about `f`. */
  function Only(ins: Insights, f: Field): Insights {
    match f
    case CategoryField => Defaults.(category := ins.category)
    case DescriptionField => Defaults.(description := ins.description)
    case CompaniesField => Defaults.(exampleCompanies := ins.exampleCompanies)
    case TrendsField => Defaults.(marketTrends := ins.marketTrends)
    case ChallengesField => Defaults.(commonChallenges := ins.commonChallenges)
    case FactorsField => Defaults.(successFactors := ins.successFactors)
  }

  /** One pass of the loop body: a section with no header changes nothing. */
  function Apply(ins: Insights, section: string): (r: Insights)
    ensures FirstHeader(section).None? ==> r == ins
  {
    match FirstHeader(section)
    case None => ins
    case Some(f) => SetField(ins, f, section)
  }

  /** A section leaves alone every field but the one its first header names. */
  lemma ApplyKeepsOtherFields(ins: Insights, section: string, g: Field)
    requires FirstHeader(section) != Some(g)
    ensures Only(Apply(ins, section), g) == Only(ins, g)
  {
    match FirstHeader(section)
    case None =>
    case Some(f) =>
      var value := HeaderValue(section, f);
      match f
      case CategoryField =>
      case DescriptionField =>
      case CompaniesField =>
      case TrendsField =>
      case ChallengesField =>
      case FactorsField =>
  }

  /** The value a section gives its field does not depend on the record before it. */
  lemma ApplySetsFromSection(ins: Insights, other: Insights, section: string, f: Field)
    requires FirstHeader(section) == Some(f)
    ensures Only(Apply(ins, section), f) == Only(Apply(other, section), f)
  {
  }

  /** The record after the loop has read `sections` in order. */
  function ParseSections(sections: seq<string>): Insights
    decreases |sections|
  {
    if sections == [] then Defaults
    else Apply(ParseSections(sections[..|sections| - 1]), sections[|sections| - 1])
  }

  /** The whole parser: `generated_text.split('\n\n')`, then the loop. */
  function Parse(text: string): Insights {
    ParseSections(Split(text, "\n\n"))
  }

  /** The parser loop of `generate_insights`. */
  method ParseInsights(generatedText: string) returns (insights: Insights)
    ensures insights == Parse(generatedText)
  {
    var sections := Split(generatedText, "\n\n");
    insights := Defaults;
    for i := 0 to |sections|
      invariant insights == ParseSections(sections[..i])
    {
      var section := sections[i];
      assert sections[..i + 1][..i] == sections[..i];
      if Contains(section, "Business Category:") {
        insights := insights.(category := Strip(AfterFirst(section, "Business Category:")));
      } else if Contains(section, "Brief Description:") {
        insights := insights.(description := Strip(AfterFirst(section, "Brief Description:")));
      } else if Contains(section, "Example Companies:") {
        var companiesText := Strip(AfterFirst(section, "Example Companies:"));
        insights := insights.(exampleCompanies := Companies(ListLines(companiesText)));
      } else if Contains(section, "Market Trends:") {
        var trendsText := Strip(AfterFirst(section, "Market Trends:"));
        insights := insights.(marketTrends := ListLines(trendsText));
      } else if Contains(section, "Common Challenges:") {
        var challengesText := Strip(AfterFirst(section, "Common Challenges:"));
        insights := insights.(commonChallenges := ListLines(challengesText));
      } else if Contains(section, "Success Factors:") {
        var factorsText := Strip(AfterFirst(section, "Success Factors:"));
        insights := insights.(successFactors := ListLines(factorsText));
      }
    }
    assert sections[..|sections|] == sections;
  }

  /** Sections that mention no header leave every field at its default. */
  lemma {:induction false} NoHeaderSections(sections: seq<string>)
    requires forall k :: 0 <= k < |sections| ==> FirstHeader(sections[k]).None?
    ensures ParseSections(sections) == Defaults
    decreases |sections|
  {
    if sections != [] {
      NoHeaderSections(sections[..|sections| - 1]);
    }
  }

  /** A reply that mentions no header parses to the defaults: category "Unknown",
      an empty description and four empty lists. */
  lemma NoHeaderGivesDefaults(text: string)
    requires forall g :: !Contains(text, Header(g))
    ensures Parse(text) == Defaults
  {
    var sections := Split(text, "\n\n");
    forall k | 0 <= k < |sections|
      ensures FirstHeader(sections[k]).None?
    {
      forall g ensures !Contains(sections[k], Header(g)) {
        if Contains(sections[k], Header(g)) {
          SplitPieceInside(text, "\n\n", k, Header(g));
        }
      }
    }
    NoHeaderSections(sections);
  }

  /** The value of a field comes from the last section whose first header is that
      field's: later sections overwrite earlier ones, and sections for other fields
      leave it alone. */
  lemma {:induction false} LastSectionWins(sections: seq<string>, j: nat, f: Field)
    requires j < |sections| && FirstHeader(sections[j]) == Some(f)
    requires forall k :: j < k < |sections| ==> FirstHeader(sections[k]) != Some(f)
    ensures Only(ParseSections(sections), f) == Only(Apply(Defaults, sections[j]), f)
    decreases |sections|
  {
    var prefix := sections[..|sections| - 1];
    if j == |sections| - 1 {
      SetByLast(sections, f);
    } else {
      assert prefix[j] == sections[j];
      LastSectionWins(prefix, j, f);
      KeptByLast(sections, f, Only(Apply(Defaults, sections[j]), f));
    }
  }

  /** A last section whose first header is `f`'s decides field `f`. */
  lemma SetByLast(sections: seq<string>, f: Field)
    requires sections != [] && FirstHeader(sections[|sections| - 1]) == Some(f)
    ensures Only(ParseSections(sections), f) == Only(Apply(Defaults, sections[|sections| - 1]), f)
  {
    ApplySetsFromSection(ParseSections(sections[..|sections| - 1]), Defaults, sections[|sections| - 1], f);
  }

  /** A last section for another field leaves field `f` as the earlier sections set it. */
  lemma KeptByLast(sections: seq<string>, f: Field, v: Insights)
    requires sections != [] && FirstHeader(sections[|sections| - 1]) != Some(f)
    requires Only(ParseSections(sections[..|sections| - 1]), f) == v
    ensures Only(ParseSections(sections), f) == v
  {
    ApplyKeepsOtherFields(ParseSections(sections[..|sections| - 1]), sections[|sections| - 1], f);
  }

  /** A field no section names keeps its default value. */
  lemma {:induction false} UnnamedFieldKeepsDefault(sections: seq<string>, f: Field)
    requires forall k :: 0 <= k < |sections| ==> FirstHeader(sections[k]) != Some(f)
    ensures Only(ParseSections(sections), f) == Only(Defaults, f)
    decreases |sections|
  {
    if sections != [] {
      UnnamedFieldKeepsDefault(sections[..|sections| - 1], f);
      ApplyKeepsOtherFields(ParseSections(sections[..|sections| - 1]), sections[|sections| - 1], f);
    }
  }

  /** The text a request yields: the reply must be a non-empty list whose first element
      is a dict, and its `generated_text` (default '') must be a string; any other shape
      raises inside the `try` (`IndexError`, `KeyError`, `AttributeError`). `None` stands
      for a failed request, an error status or a body that is not JSON. */
  function GeneratedText(reply: Option<Json>): (r: Option<string>)
    ensures r.Some? ==> reply.Some? && reply.value.Arr? && reply.value.items != [] && reply.value.items[0].Obj?
    ensures reply.Some? && reply.value.Arr? && reply.value.items != [] && reply.value.items[0].Obj? ==>
      match Get(reply.value.items[0].fields, "generated_text")
      case None => r == Some("")
      case Some(v) => (v.Str? <==> r.Some?) && (v.Str? ==> r == Some(v.s))
  {
    match reply
    case None => None
    case Some(body) =>
      if body.Arr? && body.items != [] && body.items[0].Obj? then
        match GetOr(body.items[0].fields, "generated_text", Str(""))
        case Str(t) => Some(t)
        case _ => None
      else None
  }

  /** `generate_insights` after the request: the parsed reply, or the fallback. */
  function InsightsFor(reply: Option<Json>): (r: Insights)
    ensures GeneratedText(reply).None? ==> r == Fallback && r.description == FailureDescription
    ensures GeneratedText(reply).Some? ==> r == Parse(GeneratedText(reply).value)
  {
    match GeneratedText(reply)
    case Some(text) => Parse(text)
    case None => Fallback
  }

  method GenerateInsights(reply: Option<Json>) returns (r: Insights)
    ensures r == InsightsFor(reply)
  {
    var text := GeneratedText(reply);
    if text.None? {
      return Fallback;
    }
    r := ParseInsights(text.value);
  }
}
