/** The pure helpers of the idea-validation page: the 32-bit string hash used for list
    keys, the alignment of trend data into chart datasets, the case-insensitive lookup
    of sample data, the server-or-sample choice for each list section, and the decision
    to replace a short summary by the sample analysis. */
module IdeaValidatorPage {
  import opened Common
  import opened Strings
  import opened Json

  // ---------------------------------------------------------------- 32-bit integers

  const TwoTo32 := 0x1_0000_0000
  const TwoTo31 := 0x8000_0000

  /** ECMAScript's ToInt32: the integer congruent to `x` modulo 2^32 in the signed range. */
  function ToInt32(x: int): (r: int)
    ensures -TwoTo31 <= r < TwoTo31
    ensures (r - x) % TwoTo32 == 0
  {
    var m := x % TwoTo32;
    if m >= TwoTo31 then m - TwoTo32 else m
  }

  /** ToInt32 depends only on the residue modulo 2^32. */
  lemma ToInt32Congruent(a: int, b: int, k: int)
    requires a - b == k * TwoTo32
    ensures ToInt32(a) == ToInt32(b)
  {
    assert a % TwoTo32 == b % TwoTo32;
  }

  /** `((hash << 5) - hash) + chr`, then `hash |= 0`: the shift wraps `hash * 32` to 32 bits
      first, which does not change the residue, so one step is `31 * hash + chr` wrapped. */
  lemma ShiftStep(h: int, c: int)
    ensures ToInt32(ToInt32(h * 32) - h + c) == ToInt32(31 * h + c)
  {
    var s := ToInt32(h * 32);
    var k := (s - h * 32) / TwoTo32;
    assert s - h * 32 == k * TwoTo32;
    ToInt32Congruent(s - h + c, 31 * h + c, k);
  }

  // ---------------------------------------------------------------- UTF-16

  /** A UTF-16 code unit, what `charCodeAt` returns. */
  type CodeUnit = u: int | 0 <= u < 0x10000

  /** The code units of one character: itself below U+10000, a surrogate pair above. */
  function Units(c: char): (r: seq<CodeUnit>)
    ensures c as int < 0x10000 ==> r == [c as int]
    ensures c as int >= 0x10000 ==>
      (|r| == 2 && 0xD800 <= r[0] < 0xDC00 <= r[1] < 0xE000
       && (r[0] as int - 0xD800) * 0x400 + (r[1] as int - 0xDC00) + 0x10000 == c as int)
  {
    if c as int < 0x10000 then [c as int]
    else
      var v := c as int - 0x10000;
      [0xD800 + v / 0x400, 0xDC00 + v % 0x400]
  }

  /** A JavaScript string's code units: what `length` counts and `charCodeAt` reads. */
  function Utf16(s: string): (r: seq<CodeUnit>)
    ensures |s| <= |r| <= 2 * |s|
    decreases |s|
  {
    if s == [] then [] else Units(s[0]) + Utf16(s[1..])
  }

  // ---------------------------------------------------------------- hashString

  /** The hash of a sequence of code units: h starts at 0 and each unit does
      h := ToInt32(31 * h + unit). */
  function Hash(units: seq<CodeUnit>): (h: int)
    ensures -TwoTo31 <= h < TwoTo31
    decreases |units|
  {
    if units == [] then 0 else ToInt32(31 * Hash(units[..|units| - 1]) + units[|units| - 1])
  }

  /** Java's `String.hashCode` polynomial, unbounded: the sum of u[i] * 31^(n-1-i). */
  function Poly(units: seq<CodeUnit>): int
    decreases |units|
  {
    if units == [] then 0 else 31 * Poly(units[..|units| - 1]) + units[|units| - 1]
  }

  /** Wrapping after every step gives the same value as wrapping the exact polynomial
      once: the hash is `String.hashCode` read as a signed 32-bit integer. */
  lemma {:induction false} HashIsWrappedPolynomial(units: seq<CodeUnit>)
    ensures Hash(units) == ToInt32(Poly(units))
    decreases |units|
  {
    if units != [] {
      var prefix := units[..|units| - 1];
      var u := units[|units| - 1];
      HashIsWrappedPolynomial(prefix);
      var h := Hash(prefix);
      var p := Poly(prefix);
      var k := (h - p) / TwoTo32;
      assert h - p == k * TwoTo32;
      assert (31 * h + u) - (31 * p + u) == (31 * k) * TwoTo32;
      ToInt32Congruent(31 * h + u, 31 * p + u, 31 * k);
    }
  }

  /** `hashString`: the loop over the code units of `str`. */
  method HashString(str: string) returns (hash: int)
    ensures hash == Hash(Utf16(str))
    ensures str == [] ==> hash == 0
  {
    var units := Utf16(str);
    hash := 0;
    if |units| == 0 {
      return;
    }
    for i := 0 to |units|
      invariant hash == Hash(units[..i])
    {
      var chr := units[i];
      assert units[..i + 1][..i] == units[..i];
      ShiftStep(hash, chr);
      hash := ToInt32((ToInt32(hash * 32) - hash) + chr);
    }
    assert units[..|units|] == units;
  }

  /** The React key of a list item: the hash of `item + '-' + index` for a string item,
      the index otherwise. */
  function ListKey(item: Json, index: nat): (k: int)
    ensures item.Str? ==> k == Hash(Utf16(item.s + "-" + NatToString(index))) && -TwoTo31 <= k < TwoTo31
    ensures !item.Str? ==> k == index
  {
    if item.Str? then Hash(Utf16(item.s + "-" + NatToString(index))) else index
  }

  // ---------------------------------------------------------------- trend datasets

  /** One keyword's line in the trends chart. */
  datatype Dataset = Dataset(keyword: string, data: seq<Json>, hue: int)

  /** `graph_data.trends`: for each date, the interest of each keyword on that date. */
  type Trends = seq<(string, seq<(string, Json)>)>

  function Dates(trends: Trends): (r: seq<string>)
    ensures |r| == |trends| && forall d :: 0 <= d < |r| ==> r[d] == trends[d].0
  {
    seq(|trends|, d requires 0 <= d < |trends| => trends[d].0)
  }

  /** `dates.flatMap(date => Object.keys(trends[date]))`. */
  function AllKeywords(trends: Trends): seq<string>
    decreases |trends|
  {
    if trends == [] then [] else AllKeywords(trends[..|trends| - 1]) + Keys(trends[|trends| - 1].1)
  }

  lemma {:induction false} AllKeywordsIff(trends: Trends, kw: string)
    ensures kw in AllKeywords(trends) <==> exists d :: 0 <= d < |trends| && kw in Keys(trends[d].1)
    decreases |trends|
  {
    if trends != [] {
      var n := |trends| - 1;
      var prefix := trends[..n];
      AllKeywordsIff(prefix, kw);
      assert AllKeywords(trends) == AllKeywords(prefix) + Keys(trends[n].1);
      if kw in AllKeywords(trends) {
        if kw !in Keys(trends[n].1) {
          var d :| 0 <= d < |prefix| && kw in Keys(prefix[d].1);
          assert trends[d] == prefix[d];
        }
      }
      if exists d :: 0 <= d < |trends| && kw in Keys(trends[d].1) {
        var d :| 0 <= d < |trends| && kw in Keys(trends[d].1);
        if d < n {
          assert trends[d] == prefix[d];
        }
      }
    }
  }

  /** The position of the first occurrence of `x` in `s`. */
  function FirstIndex(s: seq<string>, x: string): (k: nat)
    requires x in s
    ensures k < |s| && s[k] == x
    ensures forall i :: 0 <= i < k ==> s[i] != x
  {
    if s[0] == x then 0 else 1 + FirstIndex(s[1..], x)
  }

  /** Appending an element leaves the first occurrences already present where they were. */
  lemma {:induction false} FirstIndexSnoc(s: seq<string>, x: string, y: string)
    requires y in s
    ensures FirstIndex(s + [x], y) == FirstIndex(s, y)
    decreases |s|
  {
    if s[0] != y {
      assert (s + [x])[1..] == s[1..] + [x];
      FirstIndexSnoc(s[1..], x, y);
    }
  }

  lemma FirstIndexKept(s: seq<string>, x: string)
    ensures forall y :: y in s ==> FirstIndex(s + [x], y) == FirstIndex(s, y)
  {
    forall y | y in s ensures FirstIndex(s + [x], y) == FirstIndex(s, y) {
      FirstIndexSnoc(s, x, y);
    }
  }

  /** `Array.from(new Set(s))`: the distinct elements, in order of first appearance. */
  function Distinct(s: seq<string>): (r: seq<string>)
    ensures forall x :: x in r <==> x in s
    ensures forall i, j :: 0 <= i < j < |r| ==> r[i] != r[j]
    ensures forall i, j :: 0 <= i < j < |r| ==> FirstIndex(s, r[i]) < FirstIndex(s, r[j])
    ensures IsSubsequence(r, s)
    decreases |s|
  {
    if s == [] then []
    else
      var prefix := s[..|s| - 1];
      var x := s[|s| - 1];
      var p := Distinct(prefix);
      assert s == prefix + [x];
      FirstIndexKept(prefix, x);
      if x in p then
        SubsequenceExtend(p, prefix, x);
        p
      else
        SubsequenceSnoc(p, prefix, x);
        p + [x]
  }

  /** One row of a dataset: `trends[date][kw] ?? null`. */
  function Cell(row: seq<(string, Json)>, kw: string): Json {
    GetOr(row, kw, Null)
  }

  /** `(idx * 70) % 360`. */
  function Hue(idx: nat): (h: int)
    ensures 0 <= h < 360
  {
    (idx * 70) % 360
  }

  function DatasetFor(trends: Trends, kw: string, idx: nat): (r: Dataset)
    ensures r.keyword == kw && r.hue == Hue(idx)
    ensures |r.data| == |trends|
    ensures forall d :: 0 <= d < |trends| ==> r.data[d] == Cell(trends[d].1, kw)
  {
    Dataset(kw, seq(|trends|, d requires 0 <= d < |trends| => Cell(trends[d].1, kw)), Hue(idx))
  }

  /** The datasets of `renderTrendsSection`. */
  function TrendDatasets(trends: Trends): (r: seq<Dataset>)
    ensures |r| == |Distinct(AllKeywords(trends))|
    ensures forall i :: 0 <= i < |r| ==> r[i] == DatasetFor(trends, Distinct(AllKeywords(trends))[i], i)
  {
    var keywords := Distinct(AllKeywords(trends));
    seq(|keywords|, i requires 0 <= i < |keywords| => DatasetFor(trends, keywords[i], i))
  }

  /** Every keyword of any date labels exactly one dataset, whose values line up with
      the dates (`null` where that date lacks the keyword), and no other label occurs. */
  lemma OneDatasetPerKeyword(trends: Trends, kw: string)
    ensures (exists i :: 0 <= i < |TrendDatasets(trends)| && TrendDatasets(trends)[i].keyword == kw)
      <==> exists d :: 0 <= d < |trends| && kw in Keys(trends[d].1)
    ensures forall i, j :: 0 <= i < j < |TrendDatasets(trends)| ==> TrendDatasets(trends)[i].keyword != TrendDatasets(trends)[j].keyword
    ensures forall i, d :: 0 <= i < |TrendDatasets(trends)| && 0 <= d < |trends| ==>
      |TrendDatasets(trends)[i].data| == |Dates(trends)| && TrendDatasets(trends)[i].data[d] == Cell(trends[d].1, TrendDatasets(trends)[i].keyword)
  {
    AllKeywordsIff(trends, kw);
    var keywords := Distinct(AllKeywords(trends));
    var r := TrendDatasets(trends);
    if kw in keywords {
      var i :| 0 <= i < |keywords| && keywords[i] == kw;
      assert r[i].keyword == kw;
    }
  }

  /** The trends chart: shown only when the trends object has at least one date. */
  datatype TrendChart = TrendChart(labels: seq<string>, datasets: seq<Dataset>)

  function TrendsSection(trends: Option<Trends>): (r: Option<TrendChart>)
    ensures r.Some? <==> trends.Some? && trends.value != []
    ensures r.Some? ==> r.value.labels == Dates(trends.value) && r.value.datasets == TrendDatasets(trends.value)
  {
    if trends.Some? && trends.value != [] then Some(TrendChart(Dates(trends.value), TrendDatasets(trends.value)))
    else None
  }

  // ---------------------------------------------------------------- sample data and list sections

  /** One entry of the page's built-in sample data. */
  datatype Sample = Sample(detailedAnalysis: string, marketOpportunities: seq<string>,
                           challenges: seq<string>, recommendations: seq<string>)

  /** `sampleData[idea.toLowerCase()] || null`: an exact lookup of the lower-cased idea. */
  function SampleFor(samples: seq<(string, Sample)>, idea: string): (r: Option<Sample>)
    ensures r.Some? <==> exists i :: 0 <= i < |samples| && samples[i].0 == Lower(idea)
    ensures r.Some? ==> (Lower(idea), r.value) in samples
    decreases |samples|
  {
    if samples == [] then None
    else if samples[0].0 == Lower(idea) then Some(samples[0].1)
    else
      var r := SampleFor(samples[1..], idea);
      assert forall i :: 1 <= i < |samples| ==> samples[i] == samples[1..][i - 1];
      r
  }

  /** The lookup ignores the case of ASCII letters in the idea. */
  lemma SampleLookupIgnoresCase(samples: seq<(string, Sample)>, a: string, b: string)
    requires Lower(a) == Lower(b)
    ensures SampleFor(samples, a) == SampleFor(samples, b)
  {
  }

  datatype Section = Opportunities | Challenges | Recommendations

  function SampleList(s: Sample, section: Section): seq<string> {
    match section
    case Opportunities => s.marketOpportunities
    case Challenges => s.challenges
    case Recommendations => s.recommendations
  }

  /** The items a list section shows: the server's list when it is non-empty, else the
      sample's list when a sample exists, else none; `None` means the section renders
      nothing. An absent or `null` server field is the empty list here. */
  function SectionItems(server: seq<string>, sample: Option<Sample>, section: Section): (r: Option<seq<string>>)
    ensures r.Some? ==> r.value != []
    ensures server != [] ==> r == Some(server)
    ensures server == [] && sample.Some? && SampleList(sample.value, section) != [] ==>
      r == Some(SampleList(sample.value, section))
    ensures r.None? <==> server == [] && (sample.None? || SampleList(sample.value, section) == [])
  {
    var items := if server != [] then server else if sample.Some? then SampleList(sample.value, section) else [];
    if items != [] then Some(items) else None
  }

  // ---------------------------------------------------------------- summary

  const SamplePhrases := ["main market opportunities", "key risks", "actionable recommendations"]

  /** `showSample` over an already cleaned summary: empty, shorter than 100 code units, or
      mentioning one of the prompt phrases in any letter case. */
  predicate ShowSample(clean: string) {
    clean == [] || |Utf16(clean)| < 100 || exists p :: p in SamplePhrases && Contains(Lower(clean), p)
  }

  /** The cleaned summary is displayed iff it is at least 100 code units long and
      mentions none of the prompt phrases. */
  lemma SummaryShownIff(clean: string)
    ensures (!ShowSample(clean) && clean != []) <==>
      |Utf16(clean)| >= 100 && forall p :: p in SamplePhrases ==> !Contains(Lower(clean), p)
  {
    if |Utf16(clean)| >= 100 {
      assert clean != [];
    }
  }
}
