/** A pandas DataFrame as the application sees it: named, typed columns and
    rows of cells that are either missing (NaN/None/NaT) or a value, kept as
    the text `str(value)` renders. */
module Frames {
  import opened Optional
  import opened Seqs

  /** The storage kinds `select_dtypes` distinguishes. `Numeric` covers the
      integer, float and complex dtypes; `Timedelta` is `timedelta64`. */
  datatype Dtype = Numeric | Boolean | Object | Category | Datetime | Timedelta

  /** The kinds `np.number` selects: `np.timedelta64` is a subclass of
      `np.signedinteger`, so timedelta columns count as numbers too. */
  predicate IsNumber(d: Dtype)
  {
    d == Numeric || d == Timedelta
  }

  datatype Cell = Missing | Value(text: string)

  datatype ColumnInfo = ColumnInfo(name: string, dtype: Dtype)

  type Row = seq<Cell>

  datatype DataFrame = DataFrame(columns: seq<ColumnInfo>, rows: seq<Row>)

  function ColumnNames(f: DataFrame): (r: seq<string>)
    ensures |r| == |f.columns|
    ensures forall j :: 0 <= j < |r| ==> r[j] == f.columns[j].name
  {
    seq(|f.columns|, j requires 0 <= j < |f.columns| => f.columns[j].name)
  }

  /** The dtype of the column `df[name]` reads, if there is one. */
  function DtypeOf(f: DataFrame, name: string): Option<Dtype>
  {
    if name in ColumnNames(f) then Some(f.columns[ColumnOf(f, name)].dtype) else None
  }

  /** Every row has one cell per column. */
  predicate Rectangular(f: DataFrame)
  {
    forall i :: 0 <= i < |f.rows| ==> |f.rows[i]| == |f.columns|
  }

  predicate UniqueNames(f: DataFrame)
  {
    forall j, k :: 0 <= j < k < |f.columns| ==> f.columns[j].name != f.columns[k].name
  }

  /** A frame as pandas' CSV and Excel readers build it: rectangular, and with
      duplicate headers already renamed apart. */
  predicate WellFormed(f: DataFrame)
  {
    Rectangular(f) && UniqueNames(f)
  }

  /** No column is named by the empty string, so every name is truthy in
      Python. The readers name a blank header `Unnamed: <i>`. */
  ghost predicate BlankFree(names: seq<string>)
  {
    forall i :: 0 <= i < |names| ==> names[i] != ""
  }

  /** The position `df[name]` reads. */
  function ColumnOf(f: DataFrame, name: string): (j: nat)
    requires name in ColumnNames(f)
    ensures j < |f.columns| && f.columns[j].name == name
    ensures UniqueNames(f) ==> forall k :: 0 <= k < |f.columns| && f.columns[k].name == name ==> k == j
  {
    IndexOr(ColumnNames(f), name, 0)
  }

  /** The distinct present values of column `j`. */
  function DistinctValues(f: DataFrame, j: nat): set<string>
    requires Rectangular(f) && j < |f.columns|
  {
    set i | 0 <= i < |f.rows| && f.rows[i][j].Value? :: f.rows[i][j].text
  }

  /** `df[name].nunique()`: missing cells are not counted. */
  function NUnique(f: DataFrame, name: string): nat
    requires Rectangular(f) && name in ColumnNames(f)
  {
    |DistinctValues(f, ColumnOf(f, name))|
  }

  /** `str(cell)` as `astype(str)` renders it. */
  function AsText(c: Cell): string
  {
    match c
    case Missing => "nan"
    case Value(t) => t
  }

  /** The same columns holding a selection of rows. */
  function WithRows(f: DataFrame, rows: seq<Row>): (g: DataFrame)
    requires forall r :: r in rows ==> r in f.rows
    ensures g.columns == f.columns && g.rows == rows
    ensures Rectangular(f) ==> Rectangular(g)
    ensures UniqueNames(f) ==> UniqueNames(g)
    ensures ColumnNames(g) == ColumnNames(f)
  {
    var g := DataFrame(f.columns, rows);
    assert Rectangular(f) ==> Rectangular(g) by {
      if Rectangular(f) {
        forall i | 0 <= i < |rows|
          ensures |rows[i]| == |f.columns|
        {
          assert rows[i] in f.rows;
        }
      }
    }
    g
  }
}
