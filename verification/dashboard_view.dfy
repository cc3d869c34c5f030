/** The Dashboard page of app.py: the builder card until the dashboard is
    generated, then either one enlarged chart or the grid of KPI tiles and
    charts in rows of three. */
module DashboardView {
  import opened Optional
  import opened Seqs
  import opened Frames
  import opened Analysis
  import opened Visualizer

  /** What the page body shows. `tiles` are the KPI columns given a metric
      tile; `charts` is the number of charts laid out in the grid.
      `TileError` is the TypeError raised while rendering the tile of
      `column`. */
  datatype Screen =
    | NoData
    | Builder
    | Focused(index: nat, chart: Chart)
    | FocusedBlank
    | Grid(tiles: seq<string>, charts: nat)
    | TileError(column: string)

  /** Whether the tile of column `n` raises: `format_number` compares the
      tile's `df[n].sum()` with 1000000, and the sum of a timedelta column is
      a `pd.Timedelta`, which cannot be ordered against an int. */
  function TileFails(g: DataFrame): string -> bool
  {
    n => DtypeOf(g, n) == Some(Timedelta)
  }

  /** What `identify_key_metrics` and `generate_dashboard_charts` need of the
      displayed frame and the stored classification. */
  ghost predicate Displayable(g: DataFrame, t: ColumnTypes)
  {
    Drawable(g, t) && NamesWithin(t.numerical, g)
  }

  /** `n` is the first of `tiles` whose tile raises. */
  ghost predicate FirstTileFailure(g: DataFrame, tiles: seq<string>, n: string)
  {
    exists i :: 0 <= i < |tiles| && tiles[i] == n && TileFails(g)(n)
      && forall k :: 0 <= k < i ==> !TileFails(g)(tiles[k])
  }

  /** The grid view: `st.metric` tiles in order, then the charts. The first
      tile that raises ends the page. */
  function GridView(g: DataFrame, tiles: seq<string>, charts: nat): (r: Screen)
    ensures (forall n :: n in tiles ==> !TileFails(g)(n)) ==> r == Grid(tiles, charts)
    ensures (exists n :: n in tiles && TileFails(g)(n)) ==> r.TileError? && FirstTileFailure(g, tiles, r.column)
  {
    match FirstIndex(tiles, TileFails(g))
    case Some(i) => TileError(tiles[i])
    case None => Grid(tiles, charts)
  }

  /** The page body. `display` is the filtered frame (`None` when nothing is
      loaded), `generated` is `dashboard_generated` and `focused` is
      `focused_chart_index`. */
  function DashboardScreen(display: Option<DataFrame>, t: ColumnTypes, generated: bool, focused: Option<int>): (r: Screen)
    requires display.Some? ==> Displayable(display.value, t)
    ensures display.None? <==> r == NoData
    ensures display.Some? && !generated <==> r == Builder
    ensures display.Some? && generated ==>
      var kpi := IdentifyKeyMetrics(display.value, t);
      var charts := GenerateDashboardCharts(display.value, t, kpi);
      var tiles := Take(kpi, 4);
      && (focused.None? && (forall n :: n in tiles ==> !TileFails(display.value)(n)) ==> r == Grid(tiles, |charts|))
      && (focused.None? && (exists n :: n in tiles && TileFails(display.value)(n)) ==>
            r.TileError? && FirstTileFailure(display.value, tiles, r.column))
      && (focused.Some? && 0 <= focused.value < |charts| ==> r == Focused(focused.value, charts[focused.value]))
      && (focused.Some? && !(0 <= focused.value < |charts|) ==> r == FocusedBlank)
  {
    match display
    case None => NoData
    case Some(g) =>
      if !generated then Builder
      else
        var kpi := IdentifyKeyMetrics(g, t);
        var charts := GenerateDashboardCharts(g, t, kpi);
        match focused
        case None => GridView(g, Take(kpi, 4), |charts|)
        case Some(idx) => if 0 <= idx < |charts| then Focused(idx, charts[idx]) else FocusedBlank
  }

  /** The grid shows at most four KPI tiles, one per chosen metric, in order:
      `min(len(kpi_cols), 4)` of them. Without timedelta columns among the
      numerical ones the grid always appears; when it does not, a timedelta
      KPI raised. */
  lemma GridTiles(g: DataFrame, t: ColumnTypes)
    requires Displayable(g, t)
    ensures var r := DashboardScreen(Some(g), t, true, None);
      && ((forall n :: n in t.numerical ==> !TileFails(g)(n)) ==> r.Grid?)
      && (r.Grid? ==> |r.tiles| == (if |t.numerical| < 3 then |t.numerical| else 3)
                      && forall n :: n in r.tiles ==> n in t.numerical)
      && (r.TileError? ==> r.column in t.numerical && TileFails(g)(r.column))
  {
    var kpi := IdentifyKeyMetrics(g, t);
    var tiles := Take(kpi, 4);
    assert tiles == kpi;
    var r := DashboardScreen(Some(g), t, true, None);
    if r.TileError? {
      assert FirstTileFailure(g, tiles, r.column);
    }
  }

  /** With at most three numerical columns every one of them gets a tile, so
      a single timedelta column among them makes the grid raise. */
  lemma TimedeltaTileRaises(g: DataFrame, t: ColumnTypes, n: string)
    requires Displayable(g, t)
    requires |t.numerical| <= 3 && n in t.numerical && TileFails(g)(n)
    ensures DashboardScreen(Some(g), t, true, None).TileError?
  {
    var kpi := IdentifyKeyMetrics(g, t);
    FewNumericalAllChosen(g, t, n);
    assert Take(kpi, 4) == kpi;
    assert exists m :: m in Take(kpi, 4) && TileFails(g)(m);
  }

  /** The "Enlarge" button of chart `i`. */
  function Enlarge(i: nat): Option<int>
  {
    Some(i)
  }

  /** The "Back to Dashboard" button. */
  function Back(): Option<int>
  {
    None
  }

  /** Enlarging a chart of the grid shows that chart while the data stay the
      same, and going back shows the grid again. */
  lemma EnlargeThenBack(g: DataFrame, t: ColumnTypes, i: nat)
    requires Displayable(g, t)
    requires DashboardScreen(Some(g), t, true, None).Grid? && i < DashboardScreen(Some(g), t, true, None).charts
    ensures DashboardScreen(Some(g), t, true, Enlarge(i)).Focused?
    ensures DashboardScreen(Some(g), t, true, Enlarge(i)).index == i
    ensures DashboardScreen(Some(g), t, true, Back()) == DashboardScreen(Some(g), t, true, None)
  {
  }

  /** The indices `lo, lo+1, ..., hi-1` of `charts[lo:hi]`. */
  lemma RangeAppend(lo: nat, mid: nat, hi: nat)
    requires lo <= mid <= hi
    ensures Range(lo, mid) + Range(mid, hi) == Range(lo, hi)
  {
    var a, b, c := Range(lo, mid), Range(mid, hi), Range(lo, hi);
    assert |a + b| == |c|;
    forall k | 0 <= k < |c|
      ensures (a + b)[k] == c[k]
    {
      if k < |a| {
        assert (a + b)[k] == a[k];
      } else {
        assert (a + b)[k] == b[k - |a|];
      }
    }
  }

  /** The grid loop `for i in range(0, len(charts), 3)`: row `k` holds chart
      indices `3k`, `3k+1`, `3k+2` as far as there are charts. */
  method LayOutGrid(n: nat) returns (rows: seq<seq<nat>>)
    ensures Flatten(rows) == Range(0, n)
    ensures |rows| == (n + 2) / 3
    ensures forall k :: 0 <= k < |rows| ==> 1 <= |rows[k]| <= 3
    ensures forall k :: 0 <= k < |rows| - 1 ==> |rows[k]| == 3
    ensures forall k, j :: 0 <= k < |rows| && 0 <= j < |rows[k]| ==> rows[k][j] == 3 * k + j
  {
    rows := [];
    var i: nat := 0;
    while i < n
      invariant i == 3 * |rows|
      invariant i <= n + 2
      invariant Flatten(rows) == Range(0, if i < n then i else n)
      invariant forall k :: 0 <= k < |rows| ==> 1 <= |rows[k]| <= 3
      invariant forall k :: 0 <= k < |rows| - 1 ==> |rows[k]| == 3
      invariant |rows| > 0 ==> (i <= n <==> |rows[|rows| - 1]| == 3)
      invariant forall k, j :: 0 <= k < |rows| && 0 <= j < |rows[k]| ==> rows[k][j] == 3 * k + j
      decreases n - i
    {
      var hi := if i + 3 < n then i + 3 else n;
      var row := Range(i, hi);
      RangeAppend(0, i, hi);
      assert Flatten(rows + [row]) == Flatten(rows) + row by {
        assert (rows + [row])[..|rows|] == rows;
      }
      rows := rows + [row];
      i := i + 3;
    }
  }
}
