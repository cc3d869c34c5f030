/** The Manual Exploration canvas in app.py: four select boxes whose stored
    choices survive reruns, and the gate that decides whether a chart is
    drawn. The selection is the string the select box shows; a plotly figure
    is its kind and columns. */
module ManualBuilder {
  import opened Optional
  import opened Seqs
  import opened Frames

  const NoColumn: string := "None"
  const ChartTypes: seq<string> := ["Scatter", "Line", "Bar", "Area"]

  /** The stored choices `me_x`, `me_y`, `me_color` and `me_type`. */
  datatype Choices = Choices(x: string, y: string, color: string, kind: string)

  const InitialChoices: Choices := Choices(NoColumn, NoColumn, NoColumn, "Scatter")

  /** What the canvas shows: the hint to pick variables, or a chart. */
  datatype Canvas = Placeholder | Plot(kind: string, x: string, y: string, color: Option<string>)

  /** `cols_opts`: "None" followed by the frame's columns. */
  function ColumnOptions(f: DataFrame): (r: seq<string>)
    ensures |r| == |f.columns| + 1 && r[0] == NoColumn
    ensures forall j :: 0 <= j < |f.columns| ==> r[j + 1] == f.columns[j].name
  {
    [NoColumn] + ColumnNames(f)
  }

  /** The value a select box shows for a stored choice: the choice itself when
      it is an option, otherwise the first option. */
  function Shown(options: seq<string>, stored: string): (r: string)
    requires |options| > 0
    ensures stored in options ==> r == stored
    ensures stored !in options ==> r == options[0]
  {
    options[IndexOr(options, stored, 0)]
  }

  /** The canvas for the stored choices over frame `f`. */
  function ManualCanvas(f: DataFrame, c: Choices): (r: Canvas)
    ensures r.Plot? <==> Shown(ColumnOptions(f), c.x) != NoColumn && Shown(ColumnOptions(f), c.y) != NoColumn
    ensures r.Plot? ==> r.kind in ChartTypes && r.x in ColumnNames(f) && r.y in ColumnNames(f)
    ensures r.Plot? ==> (r.color.None? <==> Shown(ColumnOptions(f), c.color) == NoColumn)
    ensures r.Plot? && r.color.Some? ==> r.color.value in ColumnNames(f)
  {
    var opts := ColumnOptions(f);
    var x, y, color := Shown(opts, c.x), Shown(opts, c.y), Shown(opts, c.color);
    var kind := Shown(ChartTypes, c.kind);
    if x != NoColumn && y != NoColumn then
      assert forall v :: v in opts && v != NoColumn ==> v in ColumnNames(f);
      Plot(kind, x, y, if color != NoColumn then Some(color) else None)
    else Placeholder
  }

  /** A stored axis that is no longer a column (say, after a new upload) falls
      back to "None", so nothing is drawn. */
  lemma StaleAxisShowsPlaceholder(f: DataFrame, c: Choices)
    requires c.x !in ColumnNames(f) || c.y !in ColumnNames(f)
    requires c.x != NoColumn && c.y != NoColumn
    ensures ManualCanvas(f, c) == Placeholder
  {
  }

  /** Two stored columns of the frame, neither named "None", are plotted with
      the stored kind when it is one of the four, and as a scatter otherwise. */
  lemma ChosenColumnsArePlotted(f: DataFrame, c: Choices)
    requires c.x in ColumnNames(f) && c.y in ColumnNames(f)
    requires c.x != NoColumn && c.y != NoColumn
    ensures ManualCanvas(f, c).Plot?
    ensures ManualCanvas(f, c).x == c.x && ManualCanvas(f, c).y == c.y
    ensures ManualCanvas(f, c).kind == if c.kind in ChartTypes then c.kind else "Scatter"
  {
    var opts := ColumnOptions(f);
    assert opts == [NoColumn] + ColumnNames(f);
    assert Shown(opts, c.x) == c.x && Shown(opts, c.y) == c.y;
    assert Shown(ChartTypes, c.kind) == if c.kind in ChartTypes then c.kind else "Scatter";
  }

  /** The initial choices draw nothing. */
  lemma InitialCanvasEmpty(f: DataFrame)
    ensures ManualCanvas(f, InitialChoices) == Placeholder
  {
  }
}
