/** The automatic dashboard (src/visualizer.py): which of six charts are drawn
    and which columns each one uses, and the suffix rule of `format_number`.
    A chart is its kind and its column names; plotly figures, aggregated
    values and layout are not modelled. Column names are judged by Python
    truthiness exactly as the source does: `None` and the empty name are
    false. */
module Visualizer {
  import opened Optional
  import opened Seqs
  import opened Frames
  import opened Analysis

  /* ---------------------------------------------------------------------
     format_number
     --------------------------------------------------------------------- */

  /** The number `format_number` prints (before rounding to two decimals)
      and the suffix it appends. */
  datatype Formatted = Formatted(scaled: real, suffix: string)

  /** What one unit of a suffix stands for. */
  function Unit(suffix: string): real
  {
    if suffix == "M" then 1000000.0 else if suffix == "K" then 1000.0 else 1.0
  }

  function FormatNumber(num: real): (r: Formatted)
    ensures r.suffix == "M" <==> num > 1000000.0
    ensures r.suffix == "K" <==> 1000.0 < num <= 1000000.0
    ensures r.suffix == "" <==> num <= 1000.0
    ensures r.scaled * Unit(r.suffix) == num
    ensures r.suffix != "" ==> 1.0 < r.scaled
    ensures r.suffix == "K" ==> r.scaled <= 1000.0
  {
    if num > 1000000.0 then Formatted(num / 1000000.0, "M")
    else if num > 1000.0 then Formatted(num / 1000.0, "K")
    else Formatted(num, "")
  }

  function SuffixRank(suffix: string): nat
  {
    if suffix == "M" then 2 else if suffix == "K" then 1 else 0
  }

  /** A larger number never gets a smaller suffix. */
  lemma SuffixMonotone(a: real, b: real)
    requires a <= b
    ensures SuffixRank(FormatNumber(a).suffix) <= SuffixRank(FormatNumber(b).suffix)
  {
  }

  /* ---------------------------------------------------------------------
     generate_dashboard_charts
     --------------------------------------------------------------------- */

  /** The six charts in the order the dashboard appends them. `slices` and
      `bars` are the number of groups drawn. */
  datatype Chart =
    | Trend(date: string, metric: string)
    | Composition(category: string, metric: string, slices: nat)
    | Ranking(category: string, metric: string, bars: nat)
    | Relationship(x: string, y: string)
    | Distribution(metric: string)
    | SecondaryBreakdown(category: string, bars: nat)

  function KindRank(c: Chart): nat
  {
    match c
    case Trend(_, _) => 0
    case Composition(_, _, _) => 1
    case Ranking(_, _, _) => 2
    case Relationship(_, _) => 3
    case Distribution(_) => 4
    case SecondaryBreakdown(_, _) => 5
  }

  /** Python's truth value of a column name or `None`. */
  predicate Truthy(o: Option<string>)
  {
    o.Some? && o.value != ""
  }

  /** `primary_metric = kpi_cols[0] if kpi_cols else None` */
  function Primary(kpi: seq<string>): (r: Option<string>)
    ensures r.Some? <==> |kpi| > 0
    ensures r.Some? ==> r.value == kpi[0]
  {
    if |kpi| > 0 then Some(kpi[0]) else None
  }

  /** The test for a pie: between 2 and 8 distinct values. */
  function PieFit(f: DataFrame): string -> bool
  {
    n => Rectangular(f) && n in ColumnNames(f) && 2 <= NUnique(f, n) <= 8
  }

  /** The test for a ranking bar: more than 8 distinct values. */
  function WideFit(f: DataFrame): string -> bool
  {
    n => Rectangular(f) && n in ColumnNames(f) && NUnique(f, n) > 8
  }

  /** `suitable_cat`: the first categorical column fit for a pie. */
  function PieColumn(f: DataFrame, t: ColumnTypes): (r: Option<string>)
    ensures r.Some? ==> r.value in t.categorical && PieFit(f)(r.value)
    ensures r.Some? ==> exists i ::
      && 0 <= i < |t.categorical| && t.categorical[i] == r.value
      && (forall k :: 0 <= k < i ==> !PieFit(f)(t.categorical[k]))
    ensures r.None? ==> forall i :: 0 <= i < |t.categorical| ==> !PieFit(f)(t.categorical[i])
  {
    FirstWhere(t.categorical, PieFit(f))
  }

  /** `high_card_cat`: the first wide categorical column; failing that, and
      only when no pie column was found either, the first categorical one. */
  function RankingColumn(f: DataFrame, t: ColumnTypes): (r: Option<string>)
    ensures r.Some? ==> r.value in t.categorical
    ensures Truthy(FirstWhere(t.categorical, WideFit(f))) ==> r == FirstWhere(t.categorical, WideFit(f))
  {
    var high := FirstWhere(t.categorical, WideFit(f));
    if !Truthy(high) && !Truthy(PieColumn(f, t)) && |t.categorical| > 0 then Some(t.categorical[0])
    else high
  }

  function Groups(f: DataFrame, name: string): (n: nat)
    requires Rectangular(f) && name in ColumnNames(f)
    ensures n <= 8 && n <= NUnique(f, name)
  {
    if NUnique(f, name) < 8 then NUnique(f, name) else 8
  }

  /** The categorical lists names columns of the frame, as `df[col]` needs. */
  ghost predicate Drawable(f: DataFrame, t: ColumnTypes)
  {
    Rectangular(f) && NamesWithin(t.categorical, f)
  }

  /** A step draws at most one chart, of its own kind. */
  ghost predicate StepOf(cs: seq<Chart>, k: nat)
  {
    |cs| <= 1 && forall c :: c in cs ==> KindRank(c) == k
  }

  function TrendStep(t: ColumnTypes, kpi: seq<string>): (r: seq<Chart>)
    ensures StepOf(r, 0)
  {
    if Truthy(Primary(kpi)) && |t.date| > 0 then [Trend(t.date[0], kpi[0])] else []
  }

  function CompositionStep(f: DataFrame, t: ColumnTypes, kpi: seq<string>): (r: seq<Chart>)
    requires Drawable(f, t)
    ensures StepOf(r, 1)
  {
    var pie := PieColumn(f, t);
    if Truthy(pie) && Truthy(Primary(kpi)) then [Composition(pie.value, kpi[0], NUnique(f, pie.value))] else []
  }

  /** The ranking bar over the chosen column `high`. */
  function RankingBar(f: DataFrame, high: Option<string>, kpi: seq<string>): (r: seq<Chart>)
    requires Rectangular(f) && (high.Some? ==> high.value in ColumnNames(f))
    ensures StepOf(r, 2)
  {
    if Truthy(high) && Truthy(Primary(kpi)) then [Ranking(high.value, kpi[0], Groups(f, high.value))] else []
  }

  function RankingStep(f: DataFrame, t: ColumnTypes, kpi: seq<string>): (r: seq<Chart>)
    requires Drawable(f, t)
    ensures StepOf(r, 2)
  {
    var high := RankingColumn(f, t);
    if high.Some? then
      NameWithin(t.categorical, f, high.value);
      RankingBar(f, high, kpi)
    else RankingBar(f, high, kpi)
  }

  function RelationshipStep(kpi: seq<string>): (r: seq<Chart>)
    ensures StepOf(r, 3)
  {
    if |kpi| >= 2 then [Relationship(kpi[0], kpi[1])] else []
  }

  function DistributionStep(kpi: seq<string>): (r: seq<Chart>)
    ensures StepOf(r, 4)
  {
    if Truthy(Primary(kpi)) then [Distribution(kpi[0])] else []
  }

  /** `categorical[1]` exists and is neither the pie column `pie` nor the
      ranking column `high`. `sec_cat != suitable_cat` holds when
      `suitable_cat` is `None`; the option comparison models exactly that. */
  predicate SecondaryWanted(cat: seq<string>, pie: Option<string>, high: Option<string>)
  {
    |cat| > 1 && Some(cat[1]) != pie && Some(cat[1]) != high
  }

  /** The secondary bar over `categorical[1]`, given the columns the pie and
      the ranking bar chose. */
  function SecondaryBar(f: DataFrame, cat: seq<string>, pie: Option<string>, high: Option<string>): (r: seq<Chart>)
    requires Rectangular(f) && NamesWithin(cat, f)
    ensures StepOf(r, 5)
  {
    if SecondaryWanted(cat, pie, high) then
      assert cat[1] in cat;
      NameWithin(cat, f, cat[1]);
      [SecondaryBreakdown(cat[1], Groups(f, cat[1]))]
    else []
  }

  function SecondaryStep(f: DataFrame, t: ColumnTypes): (r: seq<Chart>)
    requires Drawable(f, t)
    ensures StepOf(r, 5)
  {
    SecondaryBar(f, t.categorical, PieColumn(f, t), RankingColumn(f, t))
  }

  /** Kinds strictly increase along the list, and all are below `k`. */
  ghost predicate KindsBelow(cs: seq<Chart>, k: nat)
  {
    && (forall i, j :: 0 <= i < j < |cs| ==> KindRank(cs[i]) < KindRank(cs[j]))
    && (forall c :: c in cs ==> KindRank(c) < k)
  }

  lemma AppendStep(cs: seq<Chart>, step: seq<Chart>, k: nat)
    requires KindsBelow(cs, k) && StepOf(step, k)
    ensures KindsBelow(cs + step, k + 1)
  {
    var r := cs + step;
    forall i, j | 0 <= i < j < |r|
      ensures KindRank(r[i]) < KindRank(r[j])
    {
      if j >= |cs| {
        assert r[j] in step;
        assert r[i] in cs;
      }
    }
  }

  /** `generate_dashboard_charts(df, col_types, kpi_cols)`: at most six charts,
      each kind at most once and in the fixed order trend, pie, ranking,
      scatter, histogram, secondary bar. */
  function GenerateDashboardCharts(f: DataFrame, t: ColumnTypes, kpi: seq<string>): (r: seq<Chart>)
    requires Drawable(f, t)
    ensures |r| <= 6
    ensures forall i, j :: 0 <= i < j < |r| ==> KindRank(r[i]) < KindRank(r[j])
  {
    var s0 := TrendStep(t, kpi);
    var s1 := s0 + CompositionStep(f, t, kpi);
    var s2 := s1 + RankingStep(f, t, kpi);
    var s3 := s2 + RelationshipStep(kpi);
    var s4 := s3 + DistributionStep(kpi);
    var s5 := s4 + SecondaryStep(f, t);
    AppendStep([], s0, 0);
    assert [] + s0 == s0;
    AppendStep(s0, CompositionStep(f, t, kpi), 1);
    AppendStep(s1, RankingStep(f, t, kpi), 2);
    AppendStep(s2, RelationshipStep(kpi), 3);
    AppendStep(s3, DistributionStep(kpi), 4);
    AppendStep(s4, SecondaryStep(f, t), 5);
    s5
  }

  /** A chart is on the dashboard exactly when the step of its kind drew it. */
  lemma DashboardMembers(f: DataFrame, t: ColumnTypes, kpi: seq<string>, c: Chart)
    requires Drawable(f, t)
    ensures c in GenerateDashboardCharts(f, t, kpi) <==>
      || c in TrendStep(t, kpi) || c in CompositionStep(f, t, kpi) || c in RankingStep(f, t, kpi)
      || c in RelationshipStep(kpi) || c in DistributionStep(kpi) || c in SecondaryStep(f, t)
  {
  }

  /** Each kind on the dashboard comes from its own step. */
  lemma DashboardKinds(f: DataFrame, t: ColumnTypes, kpi: seq<string>)
    requires Drawable(f, t)
    ensures var r := GenerateDashboardCharts(f, t, kpi);
      && (forall c :: c in r && c.Trend? <==> c in TrendStep(t, kpi))
      && (forall c :: c in r && c.Composition? <==> c in CompositionStep(f, t, kpi))
      && (forall c :: c in r && c.Ranking? <==> c in RankingStep(f, t, kpi))
      && (forall c :: c in r && c.Relationship? <==> c in RelationshipStep(kpi))
      && (forall c :: c in r && c.Distribution? <==> c in DistributionStep(kpi))
      && (forall c :: c in r && c.SecondaryBreakdown? <==> c in SecondaryStep(f, t))
  {
    forall c {
      DashboardKindOf(f, t, kpi, c);
    }
  }

  /** One chart against the six steps. */
  lemma DashboardKindOf(f: DataFrame, t: ColumnTypes, kpi: seq<string>, c: Chart)
    requires Drawable(f, t)
    ensures var r := GenerateDashboardCharts(f, t, kpi);
      && (c in r && c.Trend? <==> c in TrendStep(t, kpi))
      && (c in r && c.Composition? <==> c in CompositionStep(f, t, kpi))
      && (c in r && c.Ranking? <==> c in RankingStep(f, t, kpi))
      && (c in r && c.Relationship? <==> c in RelationshipStep(kpi))
      && (c in r && c.Distribution? <==> c in DistributionStep(kpi))
      && (c in r && c.SecondaryBreakdown? <==> c in SecondaryStep(f, t))
  {
    DashboardMembers(f, t, kpi, c);
  }

  /** The trend line is drawn exactly when there is a truthy primary metric
      and a date column, and it plots the primary metric over `date[0]`. */
  lemma TrendChart(f: DataFrame, t: ColumnTypes, kpi: seq<string>)
    requires Drawable(f, t)
    ensures var r := GenerateDashboardCharts(f, t, kpi);
      && ((exists c :: c in r && c.Trend?) <==> Truthy(Primary(kpi)) && |t.date| > 0)
      && (forall c :: c in r && c.Trend? ==> c == Trend(t.date[0], kpi[0]))
  {
    DashboardKinds(f, t, kpi);
    var step := TrendStep(t, kpi);
    if |step| > 0 {
      assert step[0] in step && step[0].Trend?;
    }
  }

  /** The pie is drawn exactly when a pie column was found and the primary
      metric is truthy; it splits the primary metric by the first categorical
      column with 2 to 8 distinct values, one slice per value. */
  lemma CompositionChart(f: DataFrame, t: ColumnTypes, kpi: seq<string>)
    requires Drawable(f, t)
    ensures var r := GenerateDashboardCharts(f, t, kpi);
      && ((exists c :: c in r && c.Composition?) <==> Truthy(PieColumn(f, t)) && Truthy(Primary(kpi)))
      && (forall c :: c in r && c.Composition? ==>
            && c.metric == kpi[0]
            && c.category in ColumnNames(f)
            && (exists i :: 0 <= i < |t.categorical| && t.categorical[i] == c.category
                 && (forall k :: 0 <= k < i ==> !(2 <= NUnique(f, t.categorical[k]) <= 8)))
            && c.slices == NUnique(f, c.category)
            && 2 <= c.slices <= 8)
  {
    DashboardKinds(f, t, kpi);
    var step := CompositionStep(f, t, kpi);
    if |step| > 0 {
      assert step[0] in step && step[0].Composition?;
      var pie := PieColumn(f, t);
      var i := FirstIndex(t.categorical, PieFit(f)).value;
      forall k | 0 <= k < i
        ensures !(2 <= NUnique(f, t.categorical[k]) <= 8)
      {
        assert t.categorical[k] in t.categorical;
        assert !PieFit(f)(t.categorical[k]);
      }
    }
  }

  /** The ranking bar is drawn exactly when a ranking column was chosen and
      the primary metric is truthy; it shows at most 8 groups, and its column
      is the first wide categorical one or, when there is none and no pie
      column, the first categorical one. */
  lemma RankingChart(f: DataFrame, t: ColumnTypes, kpi: seq<string>)
    requires Drawable(f, t)
    ensures var r := GenerateDashboardCharts(f, t, kpi);
      && ((exists c :: c in r && c.Ranking?) <==> Truthy(RankingColumn(f, t)) && Truthy(Primary(kpi)))
      && (forall c :: c in r && c.Ranking? ==>
            && c.metric == kpi[0] && c.category in t.categorical && c.category in ColumnNames(f)
            && c.bars <= 8 && c.bars <= NUnique(f, c.category)
            && (NUnique(f, c.category) > 8 || (c.category == t.categorical[0] && !Truthy(PieColumn(f, t)))))
  {
    DashboardKinds(f, t, kpi);
    var step := RankingStep(f, t, kpi);
    if |step| > 0 {
      assert step[0] in step && step[0].Ranking?;
      var high := FirstWhere(t.categorical, WideFit(f));
      if Truthy(high) {
        var i := FirstIndex(t.categorical, WideFit(f)).value;
      }
    }
  }

  /** The pie and the ranking bar never split by the same column. */
  lemma PieAndRankingDiffer(f: DataFrame, t: ColumnTypes, kpi: seq<string>)
    requires Drawable(f, t)
    ensures var r := GenerateDashboardCharts(f, t, kpi);
      forall p, q :: p in r && p.Composition? && q in r && q.Ranking? ==> p.category != q.category
  {
    CompositionChart(f, t, kpi);
    RankingChart(f, t, kpi);
  }

  /** The scatter appears exactly when there are two KPIs, and plots the
      first against the second; the histogram appears exactly when the
      primary metric is truthy. */
  lemma RelationshipAndDistribution(f: DataFrame, t: ColumnTypes, kpi: seq<string>)
    requires Drawable(f, t)
    ensures var r := GenerateDashboardCharts(f, t, kpi);
      && ((exists c :: c in r && c.Relationship?) <==> |kpi| >= 2)
      && (forall c :: c in r && c.Relationship? ==> c == Relationship(kpi[0], kpi[1]))
      && ((exists c :: c in r && c.Distribution?) <==> Truthy(Primary(kpi)))
      && (forall c :: c in r && c.Distribution? ==> c == Distribution(kpi[0]))
  {
    DashboardKinds(f, t, kpi);
    var scatter, hist := RelationshipStep(kpi), DistributionStep(kpi);
    if |scatter| > 0 {
      assert scatter[0] in scatter && scatter[0].Relationship?;
    }
    if |hist| > 0 {
      assert hist[0] in hist && hist[0].Distribution?;
    }
  }

  /** The secondary bar appears exactly when there are two categorical
      columns and the second is neither the pie nor the ranking column; it
      counts at most 8 values of `categorical[1]`. */
  lemma SecondaryChart(f: DataFrame, t: ColumnTypes, kpi: seq<string>)
    requires Drawable(f, t)
    ensures var r := GenerateDashboardCharts(f, t, kpi);
      && ((exists c :: c in r && c.SecondaryBreakdown?) <==>
            |t.categorical| > 1 && Some(t.categorical[1]) != PieColumn(f, t) && Some(t.categorical[1]) != RankingColumn(f, t))
      && (forall c :: c in r && c.SecondaryBreakdown? ==>
            c.category == t.categorical[1] && c.category in ColumnNames(f)
            && c.bars <= 8 && c.bars <= NUnique(f, c.category))
  {
    DashboardKinds(f, t, kpi);
    var step := SecondaryStep(f, t);
    if |step| > 0 {
      assert step[0] in step && step[0].SecondaryBreakdown?;
    }
  }

  /** Without KPIs only the secondary bar can be drawn; with no KPIs and no
      categorical columns the dashboard is empty. */
  lemma NoKpiDashboard(f: DataFrame, t: ColumnTypes)
    requires Drawable(f, t)
    ensures var r := GenerateDashboardCharts(f, t, []);
      |r| <= 1 && forall c :: c in r ==> c.SecondaryBreakdown?
    ensures t.categorical == [] ==> GenerateDashboardCharts(f, t, []) == []
  {
    var r := GenerateDashboardCharts(f, t, []);
    assert r == SecondaryStep(f, t);
  }

  /** A pie column is found exactly when some categorical column has 2 to 8
      distinct values. */
  lemma PieColumnFound(f: DataFrame, t: ColumnTypes)
    requires Drawable(f, t)
    ensures PieColumn(f, t).Some? <==> exists i :: 0 <= i < |t.categorical| && 2 <= NUnique(f, t.categorical[i]) <= 8
  {
    var cat := t.categorical;
    if PieColumn(f, t).Some? {
      var i := FirstIndex(cat, PieFit(f)).value;
    } else {
      forall i | 0 <= i < |cat|
        ensures !(2 <= NUnique(f, cat[i]) <= 8)
      {
        assert cat[i] in cat;
        assert !PieFit(f)(cat[i]);
      }
    }
  }

  /** A wide column is found exactly when some categorical column has more
      than 8 distinct values. */
  lemma WideColumnFound(f: DataFrame, t: ColumnTypes)
    requires Drawable(f, t)
    ensures FirstWhere(t.categorical, WideFit(f)).Some? <==> exists i :: 0 <= i < |t.categorical| && NUnique(f, t.categorical[i]) > 8
  {
    var cat := t.categorical;
    if FirstWhere(cat, WideFit(f)).Some? {
      var i := FirstIndex(cat, WideFit(f)).value;
    } else {
      forall i | 0 <= i < |cat|
        ensures NUnique(f, cat[i]) <= 8
      {
        assert cat[i] in cat;
        assert !WideFit(f)(cat[i]);
      }
    }
  }

  /** With non-empty column names, truthiness is presence: the pie is drawn
      exactly when some categorical column has 2 to 8 distinct values and
      there is a KPI. */
  lemma BlankFreeComposition(f: DataFrame, t: ColumnTypes, kpi: seq<string>)
    requires Drawable(f, t) && BlankFree(t.categorical) && BlankFree(kpi)
    ensures var r := GenerateDashboardCharts(f, t, kpi);
      (exists c :: c in r && c.Composition?) <==>
        |kpi| > 0 && exists i :: 0 <= i < |t.categorical| && 2 <= NUnique(f, t.categorical[i]) <= 8
  {
    CompositionChart(f, t, kpi);
    PieColumnFound(f, t);
    var pie := PieColumn(f, t);
    if pie.Some? {
      assert pie.value in t.categorical;
    }
  }

  /** With non-empty column names a ranking bar is drawn exactly when there
      is a KPI and either some categorical column has more than 8 distinct
      values, or there is a categorical column but none fit for a pie. */
  lemma BlankFreeRanking(f: DataFrame, t: ColumnTypes, kpi: seq<string>)
    requires Drawable(f, t) && BlankFree(t.categorical) && BlankFree(kpi)
    ensures var r := GenerateDashboardCharts(f, t, kpi); var cat := t.categorical;
      (exists c :: c in r && c.Ranking?) <==>
        && |kpi| > 0
        && (|| (exists i :: 0 <= i < |cat| && NUnique(f, cat[i]) > 8)
            || (|cat| > 0 && forall i :: 0 <= i < |cat| ==> !(2 <= NUnique(f, cat[i]) <= 8)))
  {
    RankingChart(f, t, kpi);
    PieColumnFound(f, t);
    WideColumnFound(f, t);
    var cat := t.categorical;
    var wide := FirstWhere(cat, WideFit(f));
    var pie := PieColumn(f, t);
    var high := RankingColumn(f, t);
    if wide.Some? {
      assert wide.value in cat;
    }
    if pie.Some? {
      assert pie.value in cat;
    }
    if high.Some? {
      assert high.value in cat;
    }
  }
}
