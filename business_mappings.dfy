/** The lookup of a curated business mapping for a free-text idea
    (backend/business_mappings.py): `normalize_idea`, the staged search of
    `get_business_mapping` over the ordered key table, and `get_similar_business_ideas`.
    The table is an ordered sequence of (key, mapping) pairs; only its order and its
    keys matter to the search. The two difflib stages are oracles passed in. */
module BusinessMappings {
  import opened Common
  import opened Strings
  import opened Json

  /** The suffixes the normaliser removes, each tested once, in this order. */
  const Suffixes: seq<string> := [" app", " service", " platform", " marketplace", " brand"]

  /** The words the synonym stage deletes, one at a time, in this order. */
  const SynonymWords: seq<Word> := ["app", "platform", "service", "marketplace", "brand"]

  /** A non-empty word, what `str.replace` deletes in the synonym stage. */
  type Word = w: string | w != [] witness "app"

  /** The fields of a `BusinessMapping` record that the HTTP handlers read. Fields the
      record types as required may still hold `None` at run time, hence `Option`. */
  datatype BusinessMapping = BusinessMapping(
    category: string,
    description: Option<string>,
    exampleCompanies: seq<Json>,
    marketTrends: Option<seq<string>>,
    commonChallenges: Option<seq<string>>,
    successFactors: Option<seq<string>>,
    marketData: Option<map<string, seq<Json>>>,
    businessPlanTemplate: Option<seq<(string, Json)>>,
    referencePlans: Option<seq<Json>>,
    businessModelCanvas: Option<seq<(string, Json)>>)

  type Table = seq<(string, BusinessMapping)>

  function TableKeys(table: Table): (r: seq<string>)
    ensures |r| == |table| && forall i :: 0 <= i < |r| ==> r[i] == table[i].0
  {
    seq(|table|, i requires 0 <= i < |table| => table[i].0)
  }

  // ---------------------------------------------------------------- normalize_idea

  /** One turn of the suffix loop. */
  function DropSuffix(s: string, suffix: string): (r: string)
    ensures EndsWith(s, suffix) ==> r + suffix == s
    ensures !EndsWith(s, suffix) ==> r == s
  {
    if EndsWith(s, suffix) then s[..|s| - |suffix|] else s
  }

  /** The suffix loop: each suffix is tested once, in order, against what is left. */
  function StripSuffixes(s: string, suffixes: seq<string>): (r: string)
    ensures |r| <= |s| && r == s[..|r|]
    decreases |suffixes|
  {
    if suffixes == [] then s else StripSuffixes(DropSuffix(s, suffixes[0]), suffixes[1..])
  }

  /** Dashes and underscores become spaces. */
  function Spaced(s: string): string {
    Replace(Replace(s, "-", " "), "_", " ")
  }

  /** `&` becomes `and`, each non-overlapping double space becomes one, the ends are
      trimmed and the remaining spaces become underscores. */
  function Finish(t: string): string {
    Replace(Strip(Replace(Replace(t, "&", "and"), "  ", " ")), " ", "_")
  }

  /** `normalize_idea`: the canonical key form of an idea. */
  function Normalize(idea: string): (r: string)
    ensures ' ' !in r && '-' !in r && '&' !in r
    ensures forall c :: c in r ==> !IsAsciiUpper(c)
  {
    var s := StripSuffixes(Lower(idea), Suffixes);
    NormalizedChars(s);
    Finish(Spaced(s))
  }

  lemma NormalizedChars(s: string)
    requires forall c :: c in s ==> !IsAsciiUpper(c)
    ensures ' ' !in Finish(Spaced(s)) && '-' !in Finish(Spaced(s)) && '&' !in Finish(Spaced(s))
    ensures forall c :: c in Finish(Spaced(s)) ==> !IsAsciiUpper(c)
  {
    var a := Replace(s, "-", " ");
    var b := Replace(a, "_", " ");
    var c := Replace(b, "&", "and");
    var d := Replace(c, "  ", " ");
    var e := Strip(d);
    var f := Replace(e, " ", "_");
    ReplaceRemovesChar(s, '-', " ");
    ReplaceKeepsOut(a, "_", " ", '-');
    ReplaceKeepsOut(b, "&", "and", '-');
    ReplaceRemovesChar(b, '&', "and");
    ReplaceKeepsOut(c, "  ", " ", '-');
    ReplaceKeepsOut(c, "  ", " ", '&');
    ReplaceKeepsOut(e, " ", "_", '-');
    ReplaceKeepsOut(e, " ", "_", '&');
    ReplaceRemovesChar(e, ' ', "_");
    forall u | IsAsciiUpper(u) ensures u !in f {
      ReplaceKeepsOut(s, "-", " ", u);
      ReplaceKeepsOut(a, "_", " ", u);
      ReplaceKeepsOut(b, "&", "and", u);
      ReplaceKeepsOut(c, "  ", " ", u);
      ReplaceKeepsOut(e, " ", "_", u);
    }
  }

  /** `normalize_idea` as the source writes it: a loop over the suffixes that
      reassigns the idea, then the chain of replacements. */
  method NormalizeIdea(idea: string) returns (r: string)
    ensures r == Normalize(idea)
    ensures ' ' !in r && '-' !in r && '&' !in r
  {
    r := Lower(idea);
    for k := 0 to |Suffixes|
      invariant StripSuffixes(r, Suffixes[k..]) == StripSuffixes(Lower(idea), Suffixes)
    {
      assert Suffixes[k..][1..] == Suffixes[k + 1..];
      if EndsWith(r, Suffixes[k]) {
        r := r[..|r| - |Suffixes[k]|];
      }
    }
    assert Suffixes[|Suffixes|..] == [];
    r := Finish(Spaced(r));
  }

  /** A word of lower-case letters and digits: nothing the normaliser rewrites. */
  predicate Plain(w: string) {
    w != [] && forall c :: c in w ==> IsAsciiLower(c) || IsAsciiDigit(c)
  }

  lemma PlainChars(w: string)
    requires Plain(w)
    ensures ' ' !in w && '-' !in w && '_' !in w && '&' !in w
    ensures forall c :: c in w ==> !IsAsciiUpper(c) && !IsSpace(c)
    ensures !IsSpace(w[0]) && !IsSpace(w[|w| - 1])
  {
    assert w[0] in w && w[|w| - 1] in w;
  }

  /** A suffix made of a space and a space-free word ends a text whose last word is
      different from it nowhere. */
  lemma NotEndsWithOtherWord(x: string, w: string, v: string)
    requires ' ' !in w && ' ' !in v && w != v
    ensures !EndsWith(x + " " + w, " " + v)
  {
    var s := x + " " + w;
    var t := " " + v;
    if |t| <= |s| {
      var p := |s| - |t|;
      if |v| == |w| {
        assert s[p..] == " " + w;
        assert (" " + w)[1..] == w && t[1..] == v;
      } else if |v| < |w| {
        assert s[p] == w[p - |x| - 1];
        assert w[p - |x| - 1] in w;
        assert s[p..][0] != t[0];
      } else {
        assert s[p..][|x| - p] == s[|x|] == ' ';
        assert t[|x| - p] == v[|x| - p - 1];
        assert v[|x| - p - 1] in v;
      }
    }
  }

  /** No suffix ends a text whose last space-separated word is not a suffix word. */
  lemma NoSuffixMatches(x: string, w: string, from: nat, to: nat)
    requires ' ' !in w && from <= to <= |Suffixes|
    requires forall k :: from <= k < to ==> Suffixes[k] != " " + w
    ensures forall k :: from <= k < to ==> !EndsWith(x + " " + w, Suffixes[k])
  {
    forall k | from <= k < to ensures !EndsWith(x + " " + w, Suffixes[k]) {
      assert Suffixes[k] == " " + Suffixes[k][1..];
      NotEndsWithOtherWord(x, w, Suffixes[k][1..]);
    }
  }

  lemma StripSuffixesNone(s: string, suffixes: seq<string>)
    requires forall k :: 0 <= k < |suffixes| ==> !EndsWith(s, suffixes[k])
    ensures StripSuffixes(s, suffixes) == s
    decreases |suffixes|
  {
    if suffixes != [] {
      StripSuffixesNone(s, suffixes[1..]);
    }
  }

  /** When the first `k` suffixes miss, the loop's outcome is decided from suffix `k` on. */
  lemma {:induction false} StripSuffixesSkip(s: string, suffixes: seq<string>, k: nat)
    requires k <= |suffixes|
    requires forall j :: 0 <= j < k ==> !EndsWith(s, suffixes[j])
    ensures StripSuffixes(s, suffixes) == StripSuffixes(s, suffixes[k..])
    decreases k
  {
    if k > 0 {
      assert suffixes[1..][k - 1..] == suffixes[k..];
      StripSuffixesSkip(s, suffixes[1..], k - 1);
    }
  }

  /** A text without spaces ends with none of the suffixes. */
  lemma NoSpaceNoSuffix(s: string, suffixes: seq<string>)
    requires ' ' !in s
    requires forall k :: 0 <= k < |suffixes| ==> suffixes[k] != [] && suffixes[k][0] == ' '
    ensures StripSuffixes(s, suffixes) == s
  {
    forall k | 0 <= k < |suffixes| ensures !EndsWith(s, suffixes[k]) {
      if |suffixes[k]| <= |s| {
        assert s[|s| - |suffixes[k]|..][0] == s[|s| - |suffixes[k]|];
        assert s[|s| - |suffixes[k]|] in s;
      }
    }
    StripSuffixesNone(s, suffixes);
  }

  /** A plain word passes the replacement chain unchanged. */
  lemma FinishSpacedPlain(a: string)
    requires Plain(a)
    ensures Finish(Spaced(a)) == a
  {
    PlainChars(a);
    ReplaceAbsentChar(a, '-', " ");
    ReplaceAbsentChar(a, '_', " ");
    ReplaceAbsentChar(a, '&', "and");
    NoPair(a, ' ');
    ReplaceAbsent(a, "  ", " ");
    StripIdentity(a);
    ReplaceAbsentChar(a, ' ', "_");
  }

  /** Two plain words joined by one space hold no double space. */
  lemma NoDoubleSpaceBetween(a: string, b: string)
    requires Plain(a) && Plain(b)
    ensures !Contains(a + " " + b, "  ")
  {
    var s := a + " " + b;
    PlainChars(a);
    PlainChars(b);
    forall i | 0 <= i < |s| - 1 ensures s[i] != ' ' || s[i + 1] != ' ' {
      if i < |a| {
        assert s[i] == a[i] && a[i] in a;
      } else if i == |a| {
        assert s[i + 1] == b[0] && b[0] in b;
      } else {
        assert s[i] == b[i - |a| - 1] && b[i - |a| - 1] in b;
      }
    }
    NoPair(s, ' ');
  }

  lemma UnderscoreBetween(a: string, b: string)
    requires ' ' !in a && ' ' !in b
    ensures Replace(a + " " + b, " ", "_") == a + "_" + b
  {
    ReplaceCharConcat(a + " ", b, ' ', "_");
    ReplaceCharConcat(a, " ", ' ', "_");
    ReplaceAbsentChar(a, ' ', "_");
    ReplaceAbsentChar(b, ' ', "_");
    assert Replace(" ", " ", "_") == "_";
  }

  /** The end of the chain turns the single space between two plain words into `_`. */
  lemma FinishSpaced(a: string, b: string)
    requires Plain(a) && Plain(b)
    ensures Finish(a + " " + b) == a + "_" + b
  {
    var s := a + " " + b;
    PlainChars(a);
    PlainChars(b);
    assert '&' !in s;
    ReplaceAbsentChar(s, '&', "and");
    NoDoubleSpaceBetween(a, b);
    ReplaceAbsent(s, "  ", " ");
    assert s[0] == a[0] && s[|s| - 1] == b[|b| - 1];
    StripIdentity(s);
    UnderscoreBetween(a, b);
  }

  /** The end of the chain turns `&` between two plain words into `and`. */
  lemma FinishAmpersand(a: string, b: string)
    requires Plain(a) && Plain(b)
    ensures Finish(a + "&" + b) == a + "and" + b
  {
    var s := a + "&" + b;
    PlainChars(a);
    PlainChars(b);
    ReplaceCharConcat(a + "&", b, '&', "and");
    ReplaceCharConcat(a, "&", '&', "and");
    ReplaceAbsentChar(a, '&', "and");
    ReplaceAbsentChar(b, '&', "and");
    var t := a + "and" + b;
    assert Replace(s, "&", "and") == t;
    assert ' ' !in t;
    NoPair(t, ' ');
    ReplaceAbsent(t, "  ", " ");
    assert t[0] == a[0] && t[|t| - 1] == b[|b| - 1];
    StripIdentity(t);
    ReplaceAbsentChar(t, ' ', "_");
  }

  /** The first two replacements turn `-` or `_` between two plain words into a space. */
  lemma SpacedSeparator(a: string, sep: char, b: string)
    requires Plain(a) && Plain(b) && (sep == '-' || sep == '_' || sep == ' ')
    ensures Spaced(a + [sep] + b) == a + " " + b
  {
    PlainChars(a);
    PlainChars(b);
    var s := a + [sep] + b;
    var t := a + " " + b;
    if sep == ' ' {
      ReplaceAbsentChar(s, '-', " ");
      ReplaceAbsentChar(s, '_', " ");
    } else {
      ReplaceCharConcat(a + [sep], b, sep, " ");
      ReplaceCharConcat(a, [sep], sep, " ");
      ReplaceAbsentChar(a, sep, " ");
      ReplaceAbsentChar(b, sep, " ");
      assert Replace(s, [sep], " ") == t;
      if sep == '-' {
        ReplaceAbsentChar(t, '_', " ");
      } else {
        ReplaceAbsentChar(s, '-', " ");
      }
    }
  }

  /** The whole chain on "a b" for two plain words. */
  lemma FinishSpacedWords(a: string, b: string)
    requires Plain(a) && Plain(b)
    ensures Finish(Spaced(a + " " + b)) == a + "_" + b
  {
    SpacedSeparator(a, ' ', b);
    assert a + [' '] + b == a + " " + b;
    FinishSpaced(a, b);
  }

  /** `-`, `_` and a single space between two plain words all come out as `_`
      (a space only when the second word is not one of the removed suffix words). */
  lemma SeparatorBecomesUnderscore(a: string, sep: char, b: string)
    requires Plain(a) && Plain(b)
    requires sep == '-' || sep == '_' || sep == ' '
    requires sep == ' ' ==> forall k :: 0 <= k < |Suffixes| ==> Suffixes[k] != " " + b
    ensures Normalize(a + [sep] + b) == a + "_" + b
  {
    var s := a + [sep] + b;
    PlainChars(a);
    PlainChars(b);
    LowerIdentity(s);
    if sep == ' ' {
      assert s == a + " " + b;
      NoSuffixMatches(a, b, 0, |Suffixes|);
      StripSuffixesNone(s, Suffixes);
    } else {
      NoSpaceNoSuffix(s, Suffixes);
    }
    SpacedSeparator(a, sep, b);
    FinishSpaced(a, b);
  }

  /** `&` between two plain words becomes `and`. */
  lemma AmpersandBecomesAnd(a: string, b: string)
    requires Plain(a) && Plain(b)
    ensures Normalize(a + "&" + b) == a + "and" + b
  {
    var s := a + "&" + b;
    PlainChars(a);
    PlainChars(b);
    LowerIdentity(s);
    NoSpaceNoSuffix(s, Suffixes);
    ReplaceAbsentChar(s, '-', " ");
    ReplaceAbsentChar(s, '_', " ");
    FinishAmpersand(a, b);
  }

  /** `Normalize` once the suffix loop's outcome on the lower-cased idea is known. */
  lemma NormalizeVia(idea: string, lowered: string, stripped: string)
    requires Lower(idea) == lowered && StripSuffixes(lowered, Suffixes) == stripped
    ensures Normalize(idea) == Finish(Spaced(stripped))
  {
  }

  /** A trailing suffix word after a plain word is removed: "x app" becomes "x". */
  lemma SuffixWordDropped(a: string, k: nat)
    requires Plain(a) && k < |Suffixes|
    ensures Normalize(a + Suffixes[k]) == a
  {
    var s := a + Suffixes[k];
    PlainChars(a);
    LowerIdentity(s);
    StripOneSuffix(a, k);
    NormalizeVia(s, s, a);
    FinishSpacedPlain(a);
  }

  /** Each suffix is a space and one word, and the suffixes are distinct. */
  lemma SuffixShape(k: nat)
    requires k < |Suffixes|
    ensures Suffixes[k] == " " + Suffixes[k][1..] && ' ' !in Suffixes[k][1..]
    ensures forall j :: 0 <= j < k ==> Suffixes[j] != Suffixes[k]
  {
    if k == 0 {
    } else if k == 1 {
    } else if k == 2 {
    } else if k == 3 {
    } else {
    }
  }

  lemma StripOneSuffix(a: string, k: nat)
    requires Plain(a) && k < |Suffixes|
    ensures StripSuffixes(a + Suffixes[k], Suffixes) == a
  {
    var s := a + Suffixes[k];
    PlainChars(a);
    var w := Suffixes[k][1..];
    SuffixShape(k);
    assert s == a + " " + w;
    NoSuffixMatches(a, w, 0, k);
    StripSuffixesSkip(s, Suffixes, k);
    assert Suffixes[k..][1..] == Suffixes[k + 1..];
    DropAppended(a, Suffixes[k]);
    SuffixesSpaced(k + 1);
    NoSpaceNoSuffix(a, Suffixes[k + 1..]);
  }

  /** Every suffix from position `from` on starts with a space. */
  lemma SuffixesSpaced(from: nat)
    requires from <= |Suffixes|
    ensures forall j :: 0 <= j < |Suffixes[from..]| ==> Suffixes[from..][j] != [] && Suffixes[from..][j][0] == ' '
  {
    forall j | 0 <= j < |Suffixes[from..]| ensures Suffixes[from..][j] != [] && Suffixes[from..][j][0] == ' ' {
      SuffixShape(from + j);
    }
  }

  /** Each suffix is tested once: "x app app" loses only one " app". */
  lemma SuffixTestedOnce(a: string)
    requires Plain(a)
    ensures Normalize(a + " app app") == a + "_app"
  {
    StripAppApp(a);
    LowerAfterPlain(a, " app app");
    NormalizeToApp(a, a + " app app");
  }

  lemma NormalizeToApp(a: string, s: string)
    requires Plain(a) && Lower(s) == s
    requires StripSuffixes(s, Suffixes) == a + " app"
    ensures Normalize(s) == a + "_app"
  {
    AppWord(a);
    NormalizeToWord(a, "app", s);
  }

  /** "app" is a plain word, and the two ways of writing "x app" and "x_app" agree. */
  lemma AppWord(a: string)
    ensures Plain("app")
    ensures a + " app" == a + " " + "app" && a + "_app" == a + "_" + "app"
  {
  }

  /** A plain word followed by text without upper-case letters is its own lower case. */
  lemma LowerAfterPlain(a: string, t: string)
    requires Plain(a) && forall c :: c in t ==> !IsAsciiUpper(c)
    ensures Lower(a + t) == a + t
  {
    PlainChars(a);
    LowerIdentity(a + t);
  }

  /** An idea already in lower case whose suffix loop leaves two plain words. */
  lemma NormalizeToWord(a: string, w: string, s: string)
    requires Plain(a) && Plain(w) && Lower(s) == s
    requires StripSuffixes(s, Suffixes) == a + " " + w
    ensures Normalize(s) == a + "_" + w
  {
    NormalizeVia(s, s, a + " " + w);
    FinishSpacedWords(a, w);
  }

  lemma StripAppApp(a: string)
    requires Plain(a)
    ensures StripSuffixes(a + " app app", Suffixes) == a + " app"
  {
    var t := a + Suffixes[0];
    assert a + " app app" == t + Suffixes[0] && t == a + " app";
    StripFirst(t);
    KeepAfterFirst(a);
  }

  /** A trailing " app" survives the turns after the first. */
  lemma KeepAfterFirst(x: string)
    ensures StripSuffixes(x + Suffixes[0], Suffixes[1..]) == x + Suffixes[0]
  {
    var w := Suffixes[0][1..];
    SuffixShape(0);
    forall k | 1 <= k < |Suffixes| ensures Suffixes[k] != " " + w {
      SuffixShape(k);
    }
    KeepFrom(x, w, 1);
    assert x + " " + w == x + (" " + w);
  }

  /** The first turn of the loop removes a trailing " app". */
  lemma StripFirst(t: string)
    ensures StripSuffixes(t + Suffixes[0], Suffixes) == StripSuffixes(t, Suffixes[1..])
  {
    DropAppended(t, Suffixes[0]);
  }

  /** The last turn of the loop removes a trailing " brand". */
  lemma StripLast(x: string)
    ensures StripSuffixes(x + Suffixes[4], Suffixes[4..]) == x
  {
    DropAppended(x, Suffixes[4]);
    assert Suffixes[4..][1..] == [];
  }

  /** A last word that none of the suffixes from `from` on names survives the rest of
      the loop. */
  lemma KeepFrom(x: string, w: string, from: nat)
    requires ' ' !in w && from <= |Suffixes|
    requires forall k :: from <= k < |Suffixes| ==> Suffixes[k] != " " + w
    ensures StripSuffixes(x + " " + w, Suffixes[from..]) == x + " " + w
  {
    NoSuffixMatches(x, w, from, |Suffixes|);
    var rest := Suffixes[from..];
    forall k | 0 <= k < |rest| ensures !EndsWith(x + " " + w, rest[k]) {
      assert rest[k] == Suffixes[from + k];
    }
    StripSuffixesNone(x + " " + w, rest);
  }

  lemma DropAppended(x: string, suffix: string)
    ensures DropSuffix(x + suffix, suffix) == x
  {
    assert (x + suffix)[|x|..] == suffix;
    assert (x + suffix)[..|x|] == x;
  }

  /** The suffixes are tried in their fixed order, " app" before " brand": "x brand app"
      loses both words ... */
  lemma SuffixOrderBoth(a: string)
    requires Plain(a)
    ensures Normalize(a + " brand app") == a
  {
    var s := a + " brand app";
    PlainChars(a);
    LowerIdentity(s);
    StripBrandApp(a);
    NormalizeVia(s, s, a);
    FinishSpacedPlain(a);
  }

  lemma StripBrandApp(a: string)
    requires Plain(a)
    ensures StripSuffixes(a + " brand app", Suffixes) == a
  {
    var t := a + Suffixes[4];
    assert a + " brand app" == t + Suffixes[0];
    StripFirst(t);
    BrandRest(a);
  }

  /** After " app" is gone, only the last turn of the loop touches "x brand". */
  lemma BrandRest(x: string)
    ensures StripSuffixes(x + Suffixes[4], Suffixes[1..]) == x
  {
    var t := x + Suffixes[4];
    assert t == x + " " + "brand";
    NoSuffixMatches(x, "brand", 1, 4);
    StripSuffixesSkip(t, Suffixes[1..], 3);
    assert Suffixes[1..][3..] == Suffixes[4..];
    StripLast(x);
  }

  /** ... while in "x app brand" the " app" is no longer at the end when its turn comes. */
  lemma SuffixOrderOne(a: string)
    requires Plain(a)
    ensures Normalize(a + " app brand") == a + "_app"
  {
    StripAppBrand(a);
    LowerAfterPlain(a, " app brand");
    NormalizeToApp(a, a + " app brand");
  }

  lemma StripAppBrand(a: string)
    requires Plain(a)
    ensures StripSuffixes(a + " app brand", Suffixes) == a + " app"
  {
    var t := a + " app";
    var s := t + Suffixes[4];
    assert s == a + " app brand" && s == t + " " + "brand";
    NoSuffixMatches(t, "brand", 0, 4);
    StripSuffixesSkip(s, Suffixes, 4);
    StripLast(t);
  }

  // ---------------------------------------------------------------- get_business_mapping

  /** The partial-match test: either normalised form contains the other. */
  predicate PartialMatch(key: string, n: string) {
    Contains(Normalize(key), n) || Contains(n, Normalize(key))
  }

  /** The partial-match test against `n`, as a test on keys. */
  function PartialTest(n: string): string -> bool {
    key => PartialMatch(key, n)
  }

  /** `key` is the first of `keys`, in order, that `p` accepts. */
  predicate IsFirstBy(keys: seq<string>, p: string -> bool, key: string) {
    exists i :: 0 <= i < |keys| && keys[i] == key && p(key)
      && forall j :: 0 <= j < i ==> !p(keys[j])
  }

  /** `key` is the first key, in table order, that partially matches `n`. */
  predicate IsFirstPartial(keys: seq<string>, n: string, key: string) {
    IsFirstBy(keys, PartialTest(n), key)
  }

  /** The partial-match loop. */
  function FirstPartial(keys: seq<string>, n: string): (r: Option<string>)
    ensures r.Some? ==> IsFirstPartial(keys, n, r.value)
    ensures r.None? ==> forall i :: 0 <= i < |keys| ==> !PartialMatch(keys[i], n)
    decreases |keys|
  {
    if keys == [] then None
    else if PartialMatch(keys[0], n) then
      assert PartialTest(n)(keys[0]);
      Some(keys[0])
    else
      var r := FirstPartial(keys[1..], n);
      FirstShift(keys, PartialTest(n), r);
      r
  }

  /** Past a first key that `p` rejects, the search of the rest decides. */
  lemma FirstShift(keys: seq<string>, p: string -> bool, r: Option<string>)
    requires keys != [] && !p(keys[0])
    requires r.Some? ==> IsFirstBy(keys[1..], p, r.value)
    requires r.None? ==> forall i :: 0 <= i < |keys[1..]| ==> !p(keys[1..][i])
    ensures r.Some? ==> IsFirstBy(keys, p, r.value)
    ensures r.None? ==> forall i :: 0 <= i < |keys| ==> !p(keys[i])
  {
    if r.Some? {
      var i :| 0 <= i < |keys[1..]| && keys[1..][i] == r.value && p(r.value)
        && forall j :: 0 <= j < i ==> !p(keys[1..][j]);
      assert keys[i + 1] == r.value;
      forall j | 0 <= j < i + 1 ensures !p(keys[j]) {
        if j > 0 {
          assert keys[j] == keys[1..][j - 1];
        }
      }
    } else {
      forall i | 0 <= i < |keys| ensures !p(keys[i]) {
        if i > 0 {
          assert keys[i] == keys[1..][i - 1];
        }
      }
    }
  }

  /** One synonym variant: the word deleted everywhere, then `_` trimmed at both ends. */
  function SynonymVariant(n: string, word: Word): string {
    StripUnderscores(Replace(n, word, ""))
  }

  /** The synonym loop: the first variant, in word order, that is a key. */
  function FirstSynonym(keys: seq<string>, n: string, words: seq<Word>): (r: Option<string>)
    ensures r.Some? ==> r.value in keys
    ensures r.Some? ==> exists k :: 0 <= k < |words| && r.value == SynonymVariant(n, words[k])
    ensures r.None? ==> forall k :: 0 <= k < |words| ==> SynonymVariant(n, words[k]) !in keys
    decreases |words|
  {
    if words == [] then None
    else if SynonymVariant(n, words[0]) in keys then Some(SynonymVariant(n, words[0]))
    else
      var r := FirstSynonym(keys, n, words[1..]);
      assert forall k :: 0 < k < |words| ==> words[k] == words[1..][k - 1];
      r
  }

  /** Accept an oracle's answer only if it names a key (difflib answers only with keys). */
  function FromKeys(keys: seq<string>, answer: Option<string>): (r: Option<string>)
    ensures r.Some? <==> answer.Some? && answer.value in keys
    ensures r.Some? ==> r == answer && r.value in keys
  {
    if answer.Some? && answer.value in keys then answer else None
  }

  /** `get_business_mapping` as a choice of key for the normalised idea `n`: exact,
      then first partial, then the close match `close` (difflib, cutoff 0.7), then the
      synonym variants, then the best-ratio key `best` (difflib, ratio above 0.5). */
  function MatchKey(keys: seq<string>, n: string,
                    close: string -> Option<string>, best: string -> Option<string>): (r: Option<string>)
    ensures r.Some? ==> r.value in keys
    ensures n in keys ==> r == Some(n)
    ensures n !in keys && (exists i :: 0 <= i < |keys| && PartialMatch(keys[i], n))
      ==> r.Some? && IsFirstPartial(keys, n, r.value)
    ensures r.None? ==>
      && n !in keys
      && (forall i :: 0 <= i < |keys| ==> !PartialMatch(keys[i], n))
      && FromKeys(keys, close(n)).None?
      && FirstSynonym(keys, n, SynonymWords).None?
      && FromKeys(keys, best(n)).None?
  {
    if n in keys then Some(n)
    else
      var partial := FirstPartial(keys, n);
      if partial.Some? then partial
      else if FromKeys(keys, close(n)).Some? then FromKeys(keys, close(n))
      else
        var syn := FirstSynonym(keys, n, SynonymWords);
        if syn.Some? then syn else FromKeys(keys, best(n))
  }

  /** When no earlier stage answers, the synonym stage returns a key only on an exact
      hit of a variant, and then the first such in word order. */
  lemma SynonymStage(keys: seq<string>, n: string,
                     close: string -> Option<string>, best: string -> Option<string>, k: nat)
    requires n !in keys
    requires forall i :: 0 <= i < |keys| ==> !PartialMatch(keys[i], n)
    requires FromKeys(keys, close(n)).None?
    requires k < |SynonymWords| && SynonymVariant(n, SynonymWords[k]) in keys
    requires forall j :: 0 <= j < k ==> SynonymVariant(n, SynonymWords[j]) !in keys
    ensures MatchKey(keys, n, close, best) == Some(SynonymVariant(n, SynonymWords[k]))
  {
    FirstSynonymIsFirst(keys, n, SynonymWords, k);
    NoPartialFound(keys, n);
  }

  /** When neither an exact nor a partial match exists, an answer of the close-match
      oracle that names a key is the result. */
  lemma CloseStage(keys: seq<string>, n: string,
                   close: string -> Option<string>, best: string -> Option<string>)
    requires n !in keys
    requires forall i :: 0 <= i < |keys| ==> !PartialMatch(keys[i], n)
    requires FromKeys(keys, close(n)).Some?
    ensures MatchKey(keys, n, close, best) == FromKeys(keys, close(n))
  {
    NoPartialFound(keys, n);
  }

  /** When every earlier stage fails, including every synonym variant, the best-ratio
      oracle decides, and only with a key. */
  lemma BestStage(keys: seq<string>, n: string,
                  close: string -> Option<string>, best: string -> Option<string>)
    requires n !in keys
    requires forall i :: 0 <= i < |keys| ==> !PartialMatch(keys[i], n)
    requires FromKeys(keys, close(n)).None?
    requires forall k :: 0 <= k < |SynonymWords| ==> SynonymVariant(n, SynonymWords[k]) !in keys
    ensures MatchKey(keys, n, close, best) == FromKeys(keys, best(n))
  {
    NoPartialFound(keys, n);
    NoSynonymFound(keys, n, SynonymWords);
  }

  /** With no variant among the keys the synonym stage finds nothing. */
  lemma NoSynonymFound(keys: seq<string>, n: string, words: seq<Word>)
    requires forall k :: 0 <= k < |words| ==> SynonymVariant(n, words[k]) !in keys
    ensures FirstSynonym(keys, n, words) == None
  {
  }

  /** With no partially matching key the partial stage finds nothing. */
  lemma NoPartialFound(keys: seq<string>, n: string)
    requires forall i :: 0 <= i < |keys| ==> !PartialMatch(keys[i], n)
    ensures FirstPartial(keys, n) == None
  {
  }

  lemma {:induction false} FirstSynonymIsFirst(keys: seq<string>, n: string, words: seq<Word>, k: nat)
    requires k < |words| && SynonymVariant(n, words[k]) in keys
    requires forall j :: 0 <= j < k ==> SynonymVariant(n, words[j]) !in keys
    ensures FirstSynonym(keys, n, words) == Some(SynonymVariant(n, words[k]))
    decreases k
  {
    if k > 0 {
      FirstSynonymIsFirst(keys, n, words[1..], k - 1);
    }
  }

  /** An idea that normalises to the empty string (such as "-", which the handlers'
      emptiness check lets through) matches the first key of the table. */
  lemma EmptyIdeaMatchesFirstKey(keys: seq<string>, idea: string,
                                 close: string -> Option<string>, best: string -> Option<string>)
    requires Normalize(idea) == [] && |keys| > 0 && [] !in keys
    ensures MatchKey(keys, Normalize(idea), close, best) == Some(keys[0])
  {
    assert StartsWith(Normalize(keys[0]), []);
    assert PartialMatch(keys[0], []);
  }

  /** "-" normalises to the empty string. */
  lemma DashNormalisesToEmpty()
    ensures Normalize("-") == []
  {
    assert Lower("-") == "-";
    NoSpaceNoSuffix("-", Suffixes);
    assert Replace("-", "-", " ") == " ";
    assert Replace(" ", "_", " ") == " ";
    assert Replace(" ", "&", "and") == " ";
    assert Replace(" ", "  ", " ") == " ";
    assert LeadCount(" ", IsSpace) == 1;
    assert Strip(" ") == [];
  }

  /** The mapping stored under a key of the table. */
  function LookupMapping(table: Table, key: string): (m: BusinessMapping)
    requires key in TableKeys(table)
    ensures (key, m) in table
    decreases |table|
  {
    if table[0].0 == key then table[0].1
    else
      assert TableKeys(table[1..]) == TableKeys(table)[1..];
      LookupMapping(table[1..], key)
  }

  /** `get_business_mapping`: the mapping of the chosen key, or `None`. */
  function GetBusinessMapping(table: Table, idea: string,
                              close: string -> Option<string>, best: string -> Option<string>): (r: Option<BusinessMapping>)
    ensures r.Some? <==> MatchKey(TableKeys(table), Normalize(idea), close, best).Some?
    ensures r.Some? ==> (MatchKey(TableKeys(table), Normalize(idea), close, best).value, r.value) in table
  {
    match MatchKey(TableKeys(table), Normalize(idea), close, best)
    case Some(k) => Some(LookupMapping(table, k))
    case None => None
  }

  // ---------------------------------------------------------------- get_similar_business_ideas

  /** The similarity test: the key contains the idea, is contained in it, or contains
      one of its whitespace-separated words. */
  predicate Similar(key: string, idea: string) {
    Contains(idea, key) || Contains(key, idea)
      || exists w :: w in SplitWhitespace(idea) && Contains(key, w)
  }

  predicate Selected(key: string, idea: string) {
    key != idea && Similar(key, idea)
  }

  /** The keys the loop collects, in table order, before the result is cut to three. */
  function SimilarKeys(keys: seq<string>, idea: string): seq<string> {
    Filter(keys, k => Selected(k, idea))
  }

  /** `get_similar_business_ideas`, as a specification. */
  function SimilarIdeas(keys: seq<string>, idea: string): seq<string> {
    Take(SimilarKeys(keys, Strip(Lower(idea))), 3)
  }

  lemma SimilarKeysSnoc(keys: seq<string>, i: nat, n: string)
    requires i < |keys|
    ensures SimilarKeys(keys[..i + 1], n)
      == SimilarKeys(keys[..i], n) + (if Selected(keys[i], n) then [keys[i]] else [])
  {
    FilterSnoc(keys[..i], keys[i], k => Selected(k, n));
    assert keys[..i + 1] == keys[..i] + [keys[i]];
  }

  /** `get_similar_business_ideas` as the source writes it: append every similar key,
      then keep the first three. */
  method GetSimilarBusinessIdeas(keys: seq<string>, idea: string) returns (r: seq<string>)
    ensures r == SimilarIdeas(keys, idea)
    ensures |r| <= 3
  {
    var n := Strip(Lower(idea));
    var similar: seq<string> := [];
    for i := 0 to |keys|
      invariant similar == SimilarKeys(keys[..i], n)
    {
      SimilarKeysSnoc(keys, i, n);
      if keys[i] != n && Similar(keys[i], n) {
        similar := similar + [keys[i]];
      }
    }
    assert keys[..|keys|] == keys;
    r := Take(similar, 3);
  }

  /** At most three keys, in table order, none equal to the trimmed lower-case idea,
      all similar; and when fewer than three come back, no similar key was left out. */
  lemma SimilarIdeasProperties(keys: seq<string>, idea: string)
    ensures |SimilarIdeas(keys, idea)| <= 3
    ensures IsSubsequence(SimilarIdeas(keys, idea), keys)
    ensures Strip(Lower(idea)) !in SimilarIdeas(keys, idea)
    ensures forall k :: k in SimilarIdeas(keys, idea) ==> Similar(k, Strip(Lower(idea)))
    ensures |SimilarIdeas(keys, idea)| < 3 ==>
      forall i :: 0 <= i < |keys| && keys[i] != Strip(Lower(idea)) && Similar(keys[i], Strip(Lower(idea)))
        ==> keys[i] in SimilarIdeas(keys, idea)
  {
    var n := Strip(Lower(idea));
    var all := SimilarKeys(keys, n);
    FilterIsSubsequence(keys, k => Selected(k, n));
    if |all| > 3 {
      SubsequencePrefix(all, keys, 3);
    }
    forall k | k in SimilarIdeas(keys, idea) ensures k != n && Similar(k, n) {
      var i :| 0 <= i < |SimilarIdeas(keys, idea)| && SimilarIdeas(keys, idea)[i] == k;
      assert all[i] == k;
    }
  }
}
