/** The pure parts of the Flask handlers: the input checks of `register` and of the three
    idea endpoints, the default filling of the responses built from a business mapping,
    and the collection of the charts a business-plan template refers to. */
module App {
  import opened Common
  import opened Strings
  import opened Json
  import opened BusinessMappings

  /** How a handler's input check ends: the request goes on with the extracted value, is
      answered with status 400 and a message, or raises inside the handler's `try`, which
      answers with status 500. */
  datatype Checked<T> = Accept(value: T) | BadRequest(message: string) | ServerError(error: PyError)

  // ---------------------------------------------------------------- register

  const RequiredFields := ["email", "password", "name"]
  const NoData := "No data provided"
  const MissingPrefix := "Missing required fields: "

  /** `field not in data`, when the test does not raise. */
  predicate Absent(data: Json, field: string) {
    In(field, data) == Ok(false)
  }

  /** `[field for field in required_fields if field not in data]`; the `in` test raises
      `TypeError` on a number, a boolean or `None`. */
  function MissingFields(data: Json): (r: Result<seq<string>>)
    ensures r.Err? <==> data.Null? || data.Bool? || data.Num?
    ensures r.Ok? ==> IsSubsequence(r.value, RequiredFields)
    ensures r.Ok? ==> forall f :: f in RequiredFields ==> (f in r.value <==> Absent(data, f))
  {
    if data.Null? || data.Bool? || data.Num? then Err(TypeError)
    else
      var missing := Filter(RequiredFields, f => Absent(data, f));
      FilterIsSubsequence(RequiredFields, f => Absent(data, f));
      Ok(missing)
  }

  /** The checks of `register` before the e-mail format test: the request goes on with
      the e-mail, password and name values only when the body is a dict holding all three. */
  function RegisterCheck(data: Json): (r: Checked<(Json, Json, Json)>)
    ensures r == BadRequest(NoData) <==> !Truthy(data)
    ensures Truthy(data) && MissingFields(data).Ok? && MissingFields(data).value != [] ==>
      r == BadRequest(MissingPrefix + Join(MissingFields(data).value, ", "))
    ensures r.Accept? <==> data.Obj? && data.fields != [] && forall f :: f in RequiredFields ==> f in Keys(data.fields)
    ensures r.BadRequest? ==>
      r.message == NoData
      || (MissingFields(data).Ok? && MissingFields(data).value != []
          && r.message == MissingPrefix + Join(MissingFields(data).value, ", "))
    ensures Truthy(data) && MissingFields(data).Err? ==> r == ServerError(TypeError)
    ensures Truthy(data) && MissingFields(data) == Ok([]) && !data.Obj? ==> r == ServerError(TypeError)
    ensures r.Accept? ==>
      (Get(data.fields, "email") == Some(r.value.0) && Get(data.fields, "password") == Some(r.value.1)
       && Get(data.fields, "name") == Some(r.value.2))
  {
    if !Truthy(data) then BadRequest(NoData)
    else match MissingFields(data)
      case Err(e) => ServerError(e)
      case Ok(missing) =>
        if missing != [] then
          MissingMessageDiffers(Join(missing, ", "));
          BadRequest(MissingPrefix + Join(missing, ", "))
        else if !data.Obj? then ServerError(TypeError)
        else
          AllPresent(data);
          Accept((Get(data.fields, "email").value, Get(data.fields, "password").value, Get(data.fields, "name").value))
  }

  /** The missing-fields message is never the no-data message. */
  lemma MissingMessageDiffers(list: string)
    ensures MissingPrefix + list != NoData
  {
    assert (MissingPrefix + list)[1] == 'i' && NoData[1] == 'o';
  }

  /** Nothing is missing from a dict exactly when it holds every required key. */
  lemma AllPresent(data: Json)
    requires data.Obj? && MissingFields(data) == Ok([])
    ensures forall f :: f in RequiredFields ==> f in Keys(data.fields)
  {
    forall f | f in RequiredFields ensures f in Keys(data.fields) {
      assert !Absent(data, f);
    }
  }

  /** A body holding only a name is told that the e-mail and the password are missing, in
      that order. */
  lemma RegisterReportsInOrder(name: Json)
    ensures RegisterCheck(Obj([("name", name)])) == BadRequest(MissingPrefix + "email" + ", " + "password")
  {
    OnlyNameGiven(name);
    var missing: seq<string> := ["email", "password"];
    assert missing[1..] == ["password"];
    assert Join(missing, ", ") == "email" + ", " + "password";
  }

  /** With only a name given, the e-mail and the password are missing, in that order. */
  lemma OnlyNameGiven(name: Json)
    ensures MissingFields(Obj([("name", name)])) == Ok(["email", "password"])
  {
    var data := Obj([("name", name)]);
    assert Keys(data.fields) == ["name"];
    assert Absent(data, "email") && Absent(data, "password") && !Absent(data, "name");
    var p := f => Absent(data, f);
    var names: seq<string> := ["name"];
    var tail: seq<string> := ["password", "name"];
    assert RequiredFields[1..] == tail && tail[1..] == names && names[1..] == [];
    assert Filter(names, p) == [];
    assert Filter(tail, p) == ["password"];
    assert Filter(RequiredFields, p) == ["email", "password"];
  }

  // ---------------------------------------------------------------- idea checks

  const NoIdea := "No idea provided"
  const EmptyIdea := "Empty idea provided"

  /** The check `validate_idea`, `generate_plan` and `generate_business_model` share: a
      missing `idea` is answered "No idea provided", one that is empty or whitespace only
      "Empty idea provided"; a body of the wrong shape raises. */
  function IdeaCheck(data: Json): (r: Checked<string>)
    ensures r == BadRequest(NoIdea) <==> !Truthy(data) || Absent(data, "idea")
    ensures r == BadRequest(EmptyIdea) <==>
      data.Obj? && Get(data.fields, "idea").Some? && Get(data.fields, "idea").value.Str?
      && Strip(Get(data.fields, "idea").value.s) == []
    ensures r.Accept? <==>
      data.Obj? && Get(data.fields, "idea").Some? && Get(data.fields, "idea").value.Str?
      && Strip(Get(data.fields, "idea").value.s) != []
    ensures r.Accept? ==> Get(data.fields, "idea") == Some(Str(r.value))
    ensures r.BadRequest? ==> r.message == NoIdea || r.message == EmptyIdea
    ensures Truthy(data) && In("idea", data).Err? ==> r == ServerError(TypeError)
    ensures Truthy(data) && In("idea", data) == Ok(true) && !data.Obj? ==> r == ServerError(TypeError)
    ensures data.Obj? && Get(data.fields, "idea").Some? && !Get(data.fields, "idea").value.Str? ==>
      r == ServerError(AttributeError)
  {
    if !Truthy(data) then BadRequest(NoIdea)
    else match In("idea", data)
      case Err(e) => ServerError(e)
      case Ok(present) =>
        if !present then BadRequest(NoIdea)
        else if !data.Obj? then ServerError(TypeError)
        else
          var idea := Get(data.fields, "idea").value;
          if !idea.Str? then ServerError(AttributeError)
          else if Strip(idea.s) == [] then BadRequest(EmptyIdea)
          else Accept(idea.s)
  }

  /** An idea of whitespace alone never reaches the mapping lookup. */
  lemma WhitespaceIdeaRejected(ws: string)
    requires forall c :: c in ws ==> IsSpace(c)
    ensures IdeaCheck(Obj([("idea", Str(ws))])) == BadRequest(EmptyIdea)
  {
    var data := Obj([("idea", Str(ws))]);
    assert Get(data.fields, "idea") == Some(Str(ws));
    assert forall i :: 0 <= i < |ws| ==> IsSpace(ws[i]);
    assert LeadCount(ws, IsSpace) == |ws|;
  }

  // ---------------------------------------------------------------- response defaults

  /** `x or default` on an optional list: `None` and `[]` both give `[]`. */
  function OrEmpty<T>(o: Option<seq<T>>): (r: seq<T>)
    ensures r == [] <==> o.None? || o.value == []
    ensures r != [] ==> r == o.value
  {
    if o.Some? then o.value else []
  }

  /** The summary fields every mapping-based response carries. */
  datatype Summary = Summary(summary: string, marketTrends: seq<string>, challenges: seq<string>, successFactors: seq<string>)

  /** `mapping.description or ''` and `mapping.<list> or []`: a falsy field gives the
      empty default, any other value is passed through. */
  function SummaryOf(m: BusinessMapping): (r: Summary)
    ensures r.summary == [] <==> m.description.None? || m.description.value == []
    ensures m.description.Some? ==> r.summary == m.description.value
    ensures m.marketTrends.Some? ==> r.marketTrends == m.marketTrends.value
    ensures m.commonChallenges.Some? ==> r.challenges == m.commonChallenges.value
    ensures m.successFactors.Some? ==> r.successFactors == m.successFactors.value
    ensures m.marketTrends.None? ==> r.marketTrends == []
    ensures m.commonChallenges.None? ==> r.challenges == []
    ensures m.successFactors.None? ==> r.successFactors == []
  {
    Summary(OrEmpty(m.description), OrEmpty(m.marketTrends), OrEmpty(m.commonChallenges), OrEmpty(m.successFactors))
  }

  /** The `validate_idea` answer for a matched mapping. */
  datatype IdeaReport = IdeaReport(summary: Summary, exampleCompanies: seq<Json>, charts: map<string, seq<Json>>)

  function IdeaReportOf(m: BusinessMapping): (r: IdeaReport)
    ensures r.summary == SummaryOf(m) && r.exampleCompanies == m.exampleCompanies
    ensures m.marketData.None? ==> r.charts == map[]
    ensures m.marketData.Some? ==> r.charts == m.marketData.value
  {
    IdeaReport(SummaryOf(m), m.exampleCompanies, if m.marketData.Some? then m.marketData.value else map[])
  }

  // ---------------------------------------------------------------- generate_plan charts

  const ChartSuffix := "_chart"
  const ChartsKey := "charts"

  /** The references one section contributes: the string values of its `*_chart` keys. */
  function FieldRefs(fields: seq<(string, Json)>): seq<string>
    decreases |fields|
  {
    if fields == [] then []
    else
      var last := fields[|fields| - 1];
      FieldRefs(fields[..|fields| - 1]) + (if EndsWith(last.0, ChartSuffix) && last.1.Str? then [last.1.s] else [])
  }

  /** The references of a plan, section by section. The `charts` section is the chart
      dict being filled, whose values are lists, so it contributes nothing. */
  function ChartRefs(plan: seq<(string, Json)>): seq<string>
    decreases |plan|
  {
    if plan == [] then []
    else
      var last := plan[|plan| - 1];
      ChartRefs(plan[..|plan| - 1]) + (if last.0 != ChartsKey && last.1.Obj? then FieldRefs(last.1.fields) else [])
  }

  /** Section `i` of the plan is a dict whose entry `j` is a `*_chart` key naming `key`. */
  predicate ReferencedAt(plan: seq<(string, Json)>, i: int, j: int, key: string) {
    0 <= i < |plan| && plan[i].0 != ChartsKey && plan[i].1.Obj?
    && 0 <= j < |plan[i].1.fields| && EndsWith(plan[i].1.fields[j].0, ChartSuffix)
    && plan[i].1.fields[j].1 == Str(key)
  }

  predicate FieldNames(fields: seq<(string, Json)>, j: int, key: string) {
    0 <= j < |fields| && EndsWith(fields[j].0, ChartSuffix) && fields[j].1 == Str(key)
  }

  lemma {:induction false} FieldRefsIff(fields: seq<(string, Json)>, key: string)
    ensures key in FieldRefs(fields) <==> exists j :: FieldNames(fields, j, key)
    decreases |fields|
  {
    if fields != [] {
      var prefix := fields[..|fields| - 1];
      FieldRefsIff(prefix, key);
      if exists j :: FieldNames(prefix, j, key) {
        var j :| FieldNames(prefix, j, key);
        assert FieldNames(fields, j, key);
      }
      if exists j :: FieldNames(fields, j, key) {
        var j :| FieldNames(fields, j, key);
        if j < |fields| - 1 {
          assert FieldNames(prefix, j, key);
        }
      }
      var last := fields[|fields| - 1];
      if EndsWith(last.0, ChartSuffix) && last.1 == Str(key) {
        assert FieldNames(fields, |fields| - 1, key);
      }
    }
  }

  /** A key is referenced iff some dict section other than `charts` has a `*_chart`
      entry whose value is that key as a string. */
  lemma {:induction false} ChartRefsIff(plan: seq<(string, Json)>, key: string)
    ensures key in ChartRefs(plan) <==> exists i, j :: ReferencedAt(plan, i, j, key)
    decreases |plan|
  {
    if plan != [] {
      var prefix := plan[..|plan| - 1];
      var last := plan[|plan| - 1];
      ChartRefsIff(prefix, key);
      if last.0 != ChartsKey && last.1.Obj? {
        FieldRefsIff(last.1.fields, key);
      }
      if exists i, j :: ReferencedAt(prefix, i, j, key) {
        var i, j :| ReferencedAt(prefix, i, j, key);
        assert ReferencedAt(plan, i, j, key);
      }
      if exists i, j :: ReferencedAt(plan, i, j, key) {
        var i, j :| ReferencedAt(plan, i, j, key);
        if i < |plan| - 1 {
          assert ReferencedAt(prefix, i, j, key);
        } else {
          assert FieldNames(last.1.fields, j, key);
        }
      }
      if last.0 != ChartsKey && last.1.Obj? && key in FieldRefs(last.1.fields) {
        var j :| FieldNames(last.1.fields, j, key);
        assert ReferencedAt(plan, |plan| - 1, j, key);
      }
    }
  }

  /** `mapping.market_data and chart_key in mapping.market_data`. */
  predicate Available(marketData: Option<map<string, seq<Json>>>, key: string) {
    marketData.Some? && key in marketData.value
  }

  /** The chart dict holding, for each of `refs` market data has, its entry. */
  function Resolve(refs: seq<string>, marketData: Option<map<string, seq<Json>>>): map<string, seq<Json>> {
    map key | key in refs && Available(marketData, key) :: marketData.value[key]
  }

  /** `plan['charts']` after the loops. */
  function ChartsFor(plan: seq<(string, Json)>, marketData: Option<map<string, seq<Json>>>): map<string, seq<Json>> {
    Resolve(ChartRefs(plan), marketData)
  }

  /** The charts hold exactly the referenced keys market data has, each with the market
      data entry; a reference market data lacks is skipped. */
  lemma ChartsForIff(plan: seq<(string, Json)>, marketData: Option<map<string, seq<Json>>>, key: string)
    ensures key in ChartsFor(plan, marketData) <==> (exists i, j :: ReferencedAt(plan, i, j, key)) && Available(marketData, key)
    ensures key in ChartsFor(plan, marketData) ==> ChartsFor(plan, marketData)[key] == marketData.value[key]
  {
    ChartRefsIff(plan, key);
  }

  /** One more reference adds its entry when market data has it. */
  lemma ResolveSnoc(refs: seq<string>, x: string, marketData: Option<map<string, seq<Json>>>)
    ensures Resolve(refs + [x], marketData)
      == if Available(marketData, x) then Resolve(refs, marketData)[x := marketData.value[x]] else Resolve(refs, marketData)
  {
  }

  /** The inner loop of `generate_plan`, over one dict section. */
  method AddFieldCharts(charts: map<string, seq<Json>>, ghost refs: seq<string>,
                        fields: seq<(string, Json)>, marketData: Option<map<string, seq<Json>>>)
    returns (r: map<string, seq<Json>>)
    requires charts == Resolve(refs, marketData)
    ensures r == Resolve(refs + FieldRefs(fields), marketData)
  {
    r := charts;
    for j := 0 to |fields|
      invariant r == Resolve(refs + FieldRefs(fields[..j]), marketData)
    {
      var k := fields[j].0;
      var v := fields[j].1;
      assert fields[..j + 1][..j] == fields[..j];
      ghost var done := refs + FieldRefs(fields[..j]);
      if EndsWith(k, ChartSuffix) && v.Str? {
        var chartKey := v.s;
        assert refs + FieldRefs(fields[..j + 1]) == done + [chartKey];
        ResolveSnoc(done, chartKey, marketData);
        if marketData.Some? && chartKey in marketData.value {
          r := r[chartKey := marketData.value[chartKey]];
        }
      } else {
        assert refs + FieldRefs(fields[..j + 1]) == done;
      }
    }
    assert fields[..|fields|] == fields;
  }

  /** The nested loops of `generate_plan` that fill `plan['charts']`. */
  method CollectCharts(plan: seq<(string, Json)>, marketData: Option<map<string, seq<Json>>>)
    returns (charts: map<string, seq<Json>>)
    ensures charts == ChartsFor(plan, marketData)
  {
    charts := map[];
    for i := 0 to |plan|
      invariant charts == ChartsFor(plan[..i], marketData)
    {
      var section := plan[i].0;
      var value := plan[i].1;
      assert plan[..i + 1][..i] == plan[..i];
      if section != ChartsKey && value.Obj? {
        charts := AddFieldCharts(charts, ChartRefs(plan[..i]), value.fields, marketData);
      }
    }
    assert plan[..|plan|] == plan;
  }

  /** The plan answered for a mapping that has a non-empty business-plan template. */
  datatype Plan = Plan(
    template: seq<(string, Json)>,
    charts: map<string, seq<Json>>,
    referencePlans: seq<Json>,
    exampleCompanies: seq<Json>,
    summary: Summary)

  /** `generate_plan` after the idea check; `None` stands for the analyzer fallback
      taken when no mapping or no template is found. */
  function PlanFor(m: Option<BusinessMapping>): (r: Option<Plan>)
    ensures r.Some? <==> m.Some? && m.value.businessPlanTemplate.Some? && m.value.businessPlanTemplate.value != []
    ensures r.Some? ==> r.value.charts == ChartsFor(m.value.businessPlanTemplate.value, m.value.marketData)
    ensures r.Some? ==> r.value.referencePlans == OrEmpty(m.value.referencePlans)
    ensures r.Some? ==> r.value.summary == SummaryOf(m.value)
    ensures r.Some? ==> r.value.template == m.value.businessPlanTemplate.value
    ensures r.Some? ==> r.value.exampleCompanies == m.value.exampleCompanies
  {
    if m.Some? && m.value.businessPlanTemplate.Some? && m.value.businessPlanTemplate.value != [] then
      var template := m.value.businessPlanTemplate.value;
      Some(Plan(template, ChartsFor(template, m.value.marketData), OrEmpty(m.value.referencePlans),
        m.value.exampleCompanies, SummaryOf(m.value)))
    else None
  }

  // ---------------------------------------------------------------- generate_business_model

  /** The model answered for a mapping that has a non-empty business-model canvas. */
  datatype Canvas = Canvas(
    canvas: seq<(string, Json)>,
    exampleCompanies: seq<Json>,
    summary: Summary,
    charts: Option<map<string, seq<Json>>>)

  /** `generate_business_model` after the idea check: `charts` is attached only when the
      mapping's market data is non-empty. A `BusinessMapping` has no `charts` attribute,
      so the `elif` branch never applies. */
  function CanvasFor(m: Option<BusinessMapping>): (r: Option<Canvas>)
    ensures r.Some? <==> m.Some? && m.value.businessModelCanvas.Some? && m.value.businessModelCanvas.value != []
    ensures r.Some? ==> (r.value.charts.Some? <==> m.value.marketData.Some? && m.value.marketData.value != map[])
    ensures r.Some? && r.value.charts.Some? ==> r.value.charts == m.value.marketData
    ensures r.Some? ==> r.value.canvas == m.value.businessModelCanvas.value
    ensures r.Some? ==> r.value.exampleCompanies == m.value.exampleCompanies && r.value.summary == SummaryOf(m.value)
  {
    if m.Some? && m.value.businessModelCanvas.Some? && m.value.businessModelCanvas.value != [] then
      var md := m.value.marketData;
      var charts := if md.Some? && md.value != map[] then md else None;
      Some(Canvas(m.value.businessModelCanvas.value, m.value.exampleCompanies, SummaryOf(m.value), charts))
    else None
  }
}
