/** The sidebar filters of app.py. On the Dashboard page the loaded frame is
    narrowed by a date range on the first date column and by up to three
    multiselect filters on low-cardinality categorical columns; on every
    other page it is shown whole. `pd.to_datetime(..., errors='coerce')` is
    the `parse` oracle (a day number, or `None` for NaT); the widgets' current
    values are parameters. */
module Filters {
  import opened Optional
  import opened Seqs
  import opened StableSort
  import opened Frames
  import opened Analysis

  const DashboardPage: string := "Dashboard"

  /* ---------------------------------------------------------------------
     Date range
     --------------------------------------------------------------------- */

  /** The day of a cell after coercion, `None` for NaT. */
  function CoercedDay(c: Cell, parse: string -> Option<int>): Option<int>
  {
    match c
    case Missing => None
    case Value(s) => parse(s)
  }

  /** The days of column `j` that coerce, in row order. */
  function Days(rows: seq<Row>, j: nat, parse: string -> Option<int>): (r: seq<int>)
    requires forall i :: 0 <= i < |rows| ==> j < |rows[i]|
    ensures forall d :: d in r <==> exists i :: 0 <= i < |rows| && CoercedDay(rows[i][j], parse) == Some(d)
    decreases |rows|
  {
    if |rows| == 0 then []
    else
      var rest := Days(rows[1..], j, parse);
      assert forall i :: 0 < i < |rows| ==> rows[i] == rows[1..][i - 1];
      match CoercedDay(rows[0][j], parse)
      case None => rest
      case Some(d) => [d] + rest
  }

  function Min(xs: seq<int>): (m: int)
    requires |xs| > 0
    ensures m in xs && forall x :: x in xs ==> m <= x
    decreases |xs|
  {
    if |xs| == 1 then xs[0]
    else
      assert forall x :: x in xs ==> x == xs[0] || x in xs[1..];
      var m := Min(xs[1..]);
      if xs[0] <= m then xs[0] else m
  }

  function Max(xs: seq<int>): (m: int)
    requires |xs| > 0
    ensures m in xs && forall x :: x in xs ==> x <= m
    decreases |xs|
  {
    if |xs| == 1 then xs[0]
    else
      assert forall x :: x in xs ==> x == xs[0] || x in xs[1..];
      var m := Max(xs[1..]);
      if xs[0] >= m then xs[0] else m
  }

  /** The range the user picked in `st.date_input`; it starts as
      `[min_date, max_date]`. */
  datatype DateRange = DateRange(start: int, end: int)

  /** The row's day in column `j` lies in the range; NaT compares false. */
  function InRange(j: nat, range: DateRange, parse: string -> Option<int>): Row -> bool
  {
    row => j < |row| && CoercedDay(row[j], parse).Some?
      && range.start <= CoercedDay(row[j], parse).value <= range.end
  }

  /** The date filter: applied only when there is a date column and some of
      its cells coerce (`min_date` and `max_date` are not NaT). */
  function DateFiltered(f: DataFrame, t: ColumnTypes, parse: string -> Option<int>, range: DateRange): (g: DataFrame)
    requires Rectangular(f) && NamesWithin(t.date, f)
    ensures g.columns == f.columns && Rectangular(g)
    ensures SubseqOf(g.rows, f.rows)
    ensures |t.date| == 0 ==> g == f
    ensures |t.date| > 0 ==> var j := ColumnOf(f, t.date[0]);
      (|Days(f.rows, j, parse)| == 0 ==> g == f)
      && (|Days(f.rows, j, parse)| > 0 ==>
            && (forall row :: row in g.rows <==> row in f.rows && InRange(j, range, parse)(row))
            && (forall row :: multiset(g.rows)[row] == if InRange(j, range, parse)(row) then multiset(f.rows)[row] else 0))
  {
    if |t.date| == 0 then
      SubseqRefl(f.rows);
      f
    else
      assert t.date[0] in t.date;
      var j := ColumnOf(f, t.date[0]);
      if |Days(f.rows, j, parse)| == 0 then
        SubseqRefl(f.rows);
        f
      else
        var rows := Filter(f.rows, InRange(j, range, parse));
        FilterIsSubseq(f.rows, InRange(j, range, parse));
        FilterMembers(f.rows, InRange(j, range, parse));
        FilterCounts(f.rows, InRange(j, range, parse));
        WithRows(f, rows)
  }

  /** The range the date input starts with: the earliest and latest day. */
  function DefaultRange(f: DataFrame, j: nat, parse: string -> Option<int>): DateRange
    requires Rectangular(f) && j < |f.columns| && |Days(f.rows, j, parse)| > 0
  {
    DateRange(Min(Days(f.rows, j, parse)), Max(Days(f.rows, j, parse)))
  }

  /** The row's day in column `j` coerces (is not NaT). */
  function Dated(j: nat, parse: string -> Option<int>): Row -> bool
  {
    row => j < |row| && CoercedDay(row[j], parse).Some?
  }

  /** Every day of the column lies in the default range. */
  lemma DefaultRangeHoldsDays(f: DataFrame, j: nat, parse: string -> Option<int>)
    requires Rectangular(f) && j < |f.columns| && |Days(f.rows, j, parse)| > 0
    ensures forall row :: row in f.rows ==> (InRange(j, DefaultRange(f, j, parse), parse)(row) <==> Dated(j, parse)(row))
  {
    var days := Days(f.rows, j, parse);
    forall row | row in f.rows && Dated(j, parse)(row)
      ensures InRange(j, DefaultRange(f, j, parse), parse)(row)
    {
      var i :| 0 <= i < |f.rows| && f.rows[i] == row;
      assert CoercedDay(row[j], parse).value in days;
    }
  }

  /** Left at its default range, the date filter drops exactly the rows whose
      date is NaT, every copy of them, and keeps every copy of the others. */
  lemma DefaultRangeDropsOnlyNaT(f: DataFrame, t: ColumnTypes, parse: string -> Option<int>)
    requires Rectangular(f) && NamesWithin(t.date, f) && |t.date| > 0
    requires var j := ColumnOf(f, t.date[0]); |Days(f.rows, j, parse)| > 0
    ensures var j := ColumnOf(f, t.date[0]);
      var g := DateFiltered(f, t, parse, DefaultRange(f, j, parse));
      && (forall row :: row in g.rows <==> row in f.rows && Dated(j, parse)(row))
      && (forall row :: multiset(g.rows)[row] == if Dated(j, parse)(row) then multiset(f.rows)[row] else 0)
  {
    assert t.date[0] in t.date;
    var j := ColumnOf(f, t.date[0]);
    var range := DefaultRange(f, j, parse);
    DefaultRangeHoldsDays(f, j, parse);
    var g := DateFiltered(f, t, parse, range);
    forall row
      ensures multiset(g.rows)[row] == if Dated(j, parse)(row) then multiset(f.rows)[row] else 0
    {
      if row !in f.rows {
        assert multiset(f.rows)[row] == 0;
      }
    }
  }

  /* ---------------------------------------------------------------------
     Categorical filters
     --------------------------------------------------------------------- */

  /** Fewer than 50 distinct values. */
  function FewValues(g: DataFrame): string -> bool
  {
    n => Rectangular(g) && n in ColumnNames(g) && NUnique(g, n) < 50
  }

  /** Each candidate paired with its number of distinct values. */
  function ByCardinality(g: DataFrame, names: seq<string>): (r: seq<Keyed>)
    requires Rectangular(g) && NamesWithin(names, g)
    ensures |r| == |names|
    ensures forall i :: 0 <= i < |r| ==> r[i] == Keyed(names[i], NUnique(g, names[i]))
  {
    seq(|names|, i requires 0 <= i < |names| => Keyed(names[i], NUnique(g, names[i])))
  }

  /** The small categorical columns, keyed by their number of distinct
      values and sorted fewest first. */
  function SortedSmall(g: DataFrame, t: ColumnTypes): (r: seq<Keyed>)
    requires Rectangular(g) && NamesWithin(t.categorical, g)
    ensures Ascending(r)
    ensures |r| == |Filter(t.categorical, FewValues(g))|
    ensures multiset(r) == multiset(ByCardinality(g, Filter(t.categorical, FewValues(g))))
    ensures forall e :: e in r ==> e.name in t.categorical && e.name in ColumnNames(g) && e.key == NUnique(g, e.name) && e.key < 50
  {
    SmallKeyed(g, t);
    Sort(ByCardinality(g, Filter(t.categorical, FewValues(g))))
  }

  /** The keyed small columns, before sorting. */
  lemma SmallKeyed(g: DataFrame, t: ColumnTypes)
    requires Rectangular(g) && NamesWithin(t.categorical, g)
    ensures forall e :: e in ByCardinality(g, Filter(t.categorical, FewValues(g))) ==>
      e.name in t.categorical && e.name in ColumnNames(g) && e.key == NUnique(g, e.name) && e.key < 50
  {
    var small := Filter(t.categorical, FewValues(g));
    var keyed := ByCardinality(g, small);
    FilterMembers(t.categorical, FewValues(g));
    forall e | e in keyed
      ensures e.name in small && e.key == NUnique(g, e.name)
    {
      var i :| 0 <= i < |keyed| && keyed[i] == e;
      assert small[i] in small;
    }
  }

  /** Every small categorical column has an entry in the sorted list. */
  lemma SmallIsSorted(g: DataFrame, t: ColumnTypes, n: string)
    requires Rectangular(g) && NamesWithin(t.categorical, g)
    requires n in t.categorical && NUnique(g, n) < 50
    ensures Keyed(n, NUnique(g, n)) in SortedSmall(g, t)
  {
    var small := Filter(t.categorical, FewValues(g));
    FilterMembers(t.categorical, FewValues(g));
    assert n in small;
    var keyed := ByCardinality(g, small);
    var p :| 0 <= p < |small| && small[p] == n;
    assert keyed[p] == Keyed(n, NUnique(g, n));
    assert keyed[p] in keyed;
  }

  /** `filter_cols[:3]`: the categorical columns with fewer than 50 distinct
      values in the date-filtered frame, fewest first, ties in column order. */
  function FilterColumns(g: DataFrame, t: ColumnTypes): (r: seq<string>)
    requires Rectangular(g) && NamesWithin(t.categorical, g)
    ensures |r| <= 3
    ensures |r| == if |Filter(t.categorical, FewValues(g))| < 3 then |Filter(t.categorical, FewValues(g))| else 3
    ensures forall n :: n in r ==> n in t.categorical && n in ColumnNames(g) && NUnique(g, n) < 50
  {
    FrontNames(SortedSmall(g, t), 3);
    KeyNames(Take(SortedSmall(g, t), 3))
  }

  /** The filter columns come fewest distinct values first. */
  lemma FilterColumnsAscending(g: DataFrame, t: ColumnTypes)
    requires Rectangular(g) && NamesWithin(t.categorical, g)
    ensures var r := FilterColumns(g, t);
      forall i, k :: 0 <= i < k < |r| ==> NUnique(g, r[i]) <= NUnique(g, r[k])
  {
    var sorted := SortedSmall(g, t);
    var r := FilterColumns(g, t);
    forall i, k | 0 <= i < k < |r|
      ensures NUnique(g, r[i]) <= NUnique(g, r[k])
    {
      assert sorted[i] in sorted && sorted[k] in sorted;
    }
  }

  /** One small categorical column left out against one chosen. */
  lemma FilterColumnBeats(g: DataFrame, t: ColumnTypes, n: string, m: string)
    requires Rectangular(g) && NamesWithin(t.categorical, g)
    requires n in t.categorical && NUnique(g, n) < 50
    requires n !in FilterColumns(g, t) && m in FilterColumns(g, t)
    ensures NUnique(g, m) <= NUnique(g, n)
  {
    var sorted := SortedSmall(g, t);
    var r := FilterColumns(g, t);
    SmallIsSorted(g, t, n);
    var q :| 0 <= q < |sorted| && sorted[q] == Keyed(n, NUnique(g, n));
    var i :| 0 <= i < |r| && r[i] == m;
    assert sorted[i] in sorted;
    TakenKeysBelow(sorted, 3, q, i);
  }

  /** Every small categorical column left out has at least as many distinct
      values as each filter column. */
  lemma FilterColumnsAreSmallest(g: DataFrame, t: ColumnTypes)
    requires Rectangular(g) && NamesWithin(t.categorical, g)
    ensures var r := FilterColumns(g, t);
      forall n, m :: n in t.categorical && NUnique(g, n) < 50 && n !in r && m in r ==> NUnique(g, m) <= NUnique(g, n)
  {
    forall n, m | n in t.categorical && NUnique(g, n) < 50 && n !in FilterColumns(g, t) && m in FilterColumns(g, t)
      ensures NUnique(g, m) <= NUnique(g, n)
    {
      FilterColumnBeats(g, t, n, m);
    }
  }

  /** "The column has `s` distinct values", for a column of the frame. */
  function HasNUnique(g: DataFrame, s: int): string -> bool
  {
    n => Rectangular(g) && n in ColumnNames(g) && NUnique(g, n) == s
  }

  /** Ties keep the column order: among the categorical columns with any one
      number of distinct values, the chosen ones are the first such columns
      of `categorical`, in that order. */
  lemma FilterColumnsKeepTieOrder(g: DataFrame, t: ColumnTypes, s: int)
    requires Rectangular(g) && NamesWithin(t.categorical, g)
    ensures var chosen := Filter(FilterColumns(g, t), HasNUnique(g, s));
      var tied := Filter(t.categorical, HasNUnique(g, s));
      |chosen| <= |tied| && chosen == tied[..|chosen|]
  {
    var chosen := Filter(FilterColumns(g, t), HasNUnique(g, s));
    if s >= 50 {
      var r := FilterColumns(g, t);
      forall i | 0 <= i < |r|
        ensures !HasNUnique(g, s)(r[i])
      {
        assert r[i] in r;
      }
      FilterNone(r, HasNUnique(g, s));
    } else {
      var small := Filter(t.categorical, FewValues(g));
      var keyed := ByCardinality(g, small);
      var top := Take(SortedSmall(g, t), 3);
      FilterMembers(t.categorical, FewValues(g));
      forall i | 0 <= i < |keyed|
        ensures HasNUnique(g, s)(keyed[i].name) <==> keyed[i].key == s
      {
        assert small[i] in small;
      }
      assert KeyNames(keyed) == small;
      assert top == Sort(keyed)[..|top|];
      SortedFrontKeepsOrder(keyed, |top|, s, HasNUnique(g, s));
      FilterOfFilter(t.categorical, FewValues(g), HasNUnique(g, s));
    }
  }

  /** Distinct categorical columns give distinct sorted entries. */
  lemma SortedSmallDistinct(g: DataFrame, t: ColumnTypes)
    requires Rectangular(g) && NamesWithin(t.categorical, g)
    requires NoDuplicates(t.categorical)
    ensures NoDuplicates(SortedSmall(g, t))
  {
    var small := Filter(t.categorical, FewValues(g));
    var keyed := ByCardinality(g, small);
    NoDuplicatesCounts(t.categorical);
    FilterCounts(t.categorical, FewValues(g));
    CountsNoDuplicates(small);
    NoDuplicatesCounts(keyed);
    CountsNoDuplicates(SortedSmall(g, t));
  }

  /** Distinct categorical columns give distinct filter columns. */
  lemma FilterColumnsDistinct(g: DataFrame, t: ColumnTypes)
    requires Rectangular(g) && NamesWithin(t.categorical, g)
    requires NoDuplicates(t.categorical)
    ensures NoDuplicates(FilterColumns(g, t))
  {
    var sorted := SortedSmall(g, t);
    var r := FilterColumns(g, t);
    SortedSmallDistinct(g, t);
    forall i, k | 0 <= i < k < |r|
      ensures r[i] != r[k]
    {
      assert sorted[i] in sorted && sorted[k] in sorted;
    }
  }

  /** The values picked in the multiselect of column `c`; none when the
      widget has never been touched. */
  function Selected(selections: map<string, seq<string>>, c: string): seq<string>
  {
    if c in selections then selections[c] else []
  }

  /** `df[col].astype(str).isin(selected)` for the column at `j`, applied
      only when something is selected. */
  function KeepRow(j: nat, selected: seq<string>): Row -> bool
  {
    row => |selected| == 0 || (j < |row| && AsText(row[j]) in selected)
  }

  /** The row passes the filters of the first `k` filter columns. */
  ghost predicate PassesFirst(g: DataFrame, cols: seq<string>, selections: map<string, seq<string>>, k: nat, row: Row)
    requires k <= |cols| && forall c :: c in cols ==> c in ColumnNames(g)
  {
    forall m :: 0 <= m < k ==> KeepRow(ColumnOf(g, cols[m]), Selected(selections, cols[m]))(row)
  }

  /** Passing one more filter column. */
  lemma PassesNext(g: DataFrame, cols: seq<string>, selections: map<string, seq<string>>, k: nat, row: Row)
    requires k < |cols| && forall c :: c in cols ==> c in ColumnNames(g)
    ensures PassesFirst(g, cols, selections, k + 1, row) <==>
      PassesFirst(g, cols, selections, k, row) && KeepRow(ColumnOf(g, cols[k]), Selected(selections, cols[k]))(row)
  {
  }

  /** One pass of the loop: filtering by column `k` keeps the rows passing
      the first `k + 1` filters. */
  lemma FilterStep(g: DataFrame, cols: seq<string>, selections: map<string, seq<string>>, k: nat, rows: seq<Row>)
    requires k < |cols| && forall c :: c in cols ==> c in ColumnNames(g)
    requires forall row :: row in rows <==> row in g.rows && PassesFirst(g, cols, selections, k, row)
    ensures var keep := KeepRow(ColumnOf(g, cols[k]), Selected(selections, cols[k]));
      forall row :: row in Filter(rows, keep) <==> row in g.rows && PassesFirst(g, cols, selections, k + 1, row)
  {
    var keep := KeepRow(ColumnOf(g, cols[k]), Selected(selections, cols[k]));
    FilterMembers(rows, keep);
    forall row
      ensures row in Filter(rows, keep) <==> row in g.rows && PassesFirst(g, cols, selections, k + 1, row)
    {
      PassesNext(g, cols, selections, k, row);
    }
  }

  /** The same step, counting copies: a row passing the first `k + 1`
      filters keeps all its copies, any other row none. */
  lemma FilterStepCounts(g: DataFrame, cols: seq<string>, selections: map<string, seq<string>>, k: nat, rows: seq<Row>)
    requires k < |cols| && forall c :: c in cols ==> c in ColumnNames(g)
    requires forall row :: multiset(rows)[row] == if PassesFirst(g, cols, selections, k, row) then multiset(g.rows)[row] else 0
    ensures var keep := KeepRow(ColumnOf(g, cols[k]), Selected(selections, cols[k]));
      forall row :: multiset(Filter(rows, keep))[row] == if PassesFirst(g, cols, selections, k + 1, row) then multiset(g.rows)[row] else 0
  {
    var keep := KeepRow(ColumnOf(g, cols[k]), Selected(selections, cols[k]));
    FilterCounts(rows, keep);
    forall row
      ensures multiset(Filter(rows, keep))[row] == if PassesFirst(g, cols, selections, k + 1, row) then multiset(g.rows)[row] else 0
    {
      PassesNext(g, cols, selections, k, row);
    }
  }

  /** Copies counted as passing rows make the rows the passing ones. */
  lemma CountsGiveMembers(g: DataFrame, cols: seq<string>, selections: map<string, seq<string>>, k: nat, rows: seq<Row>)
    requires k <= |cols| && forall c :: c in cols ==> c in ColumnNames(g)
    requires forall row :: multiset(rows)[row] == if PassesFirst(g, cols, selections, k, row) then multiset(g.rows)[row] else 0
    ensures forall row :: row in rows <==> row in g.rows && PassesFirst(g, cols, selections, k, row)
  {
    forall row
      ensures row in rows <==> row in g.rows && PassesFirst(g, cols, selections, k, row)
    {
      assert row in rows <==> multiset(rows)[row] > 0;
      assert row in g.rows <==> multiset(g.rows)[row] > 0;
    }
  }

  /** An empty selection filters nothing. */
  lemma EmptySelectionPasses(g: DataFrame, cols: seq<string>, selections: map<string, seq<string>>, k: nat, row: Row)
    requires k < |cols| && forall c :: c in cols ==> c in ColumnNames(g)
    requires Selected(selections, cols[k]) == []
    ensures PassesFirst(g, cols, selections, k + 1, row) <==> PassesFirst(g, cols, selections, k, row)
  {
    PassesNext(g, cols, selections, k, row);
  }

  /** An empty selection keeps every copy of every row it is given. */
  lemma EmptySelectionCounts(g: DataFrame, cols: seq<string>, selections: map<string, seq<string>>, k: nat, rows: seq<Row>)
    requires k < |cols| && forall c :: c in cols ==> c in ColumnNames(g)
    requires Selected(selections, cols[k]) == []
    requires forall row :: multiset(rows)[row] == if PassesFirst(g, cols, selections, k, row) then multiset(g.rows)[row] else 0
    ensures forall row :: multiset(rows)[row] == if PassesFirst(g, cols, selections, k + 1, row) then multiset(g.rows)[row] else 0
  {
    forall row
      ensures multiset(rows)[row] == if PassesFirst(g, cols, selections, k + 1, row) then multiset(g.rows)[row] else 0
    {
      EmptySelectionPasses(g, cols, selections, k, row);
    }
  }

  /** One pass of the loop: `if selected:` narrow the frame by the selection
      of column `k`. */
  function SelectionStep(g: DataFrame, cols: seq<string>, selections: map<string, seq<string>>, k: nat, h: DataFrame): (r: DataFrame)
    requires Rectangular(g) && k < |cols| && forall c :: c in cols ==> c in ColumnNames(g)
    requires h.columns == g.columns && Rectangular(h) && SubseqOf(h.rows, g.rows)
    requires forall row :: multiset(h.rows)[row] == if PassesFirst(g, cols, selections, k, row) then multiset(g.rows)[row] else 0
    ensures r.columns == g.columns && Rectangular(r) && SubseqOf(r.rows, g.rows)
    ensures forall row :: multiset(r.rows)[row] == if PassesFirst(g, cols, selections, k + 1, row) then multiset(g.rows)[row] else 0
    ensures Selected(selections, cols[k]) == [] ==> r == h
  {
    var selected := Selected(selections, cols[k]);
    if |selected| > 0 then
      var keep := KeepRow(ColumnOf(g, cols[k]), selected);
      var rows := Filter(h.rows, keep);
      FilterIsSubseq(h.rows, keep);
      SubseqTrans(rows, h.rows, g.rows);
      FilterMembers(h.rows, keep);
      FilterStepCounts(g, cols, selections, k, h.rows);
      WithRows(h, rows)
    else
      EmptySelectionCounts(g, cols, selections, k, h.rows);
      h
  }

  /** The loop over the filter columns: each non-empty selection keeps the
      rows whose value, as text, was selected. */
  method ApplySelections(g: DataFrame, cols: seq<string>, selections: map<string, seq<string>>) returns (h: DataFrame)
    requires Rectangular(g) && forall c :: c in cols ==> c in ColumnNames(g)
    ensures h.columns == g.columns && Rectangular(h)
    ensures SubseqOf(h.rows, g.rows)
    ensures forall row :: row in h.rows <==> row in g.rows && PassesFirst(g, cols, selections, |cols|, row)
    ensures forall row :: multiset(h.rows)[row] == if PassesFirst(g, cols, selections, |cols|, row) then multiset(g.rows)[row] else 0
    ensures (forall c :: c in cols ==> Selected(selections, c) == []) ==> h == g
  {
    h := g;
    SubseqRefl(g.rows);
    var k := 0;
    while k < |cols|
      invariant k <= |cols|
      invariant h.columns == g.columns && Rectangular(h)
      invariant SubseqOf(h.rows, g.rows)
      invariant forall row :: multiset(h.rows)[row] == if PassesFirst(g, cols, selections, k, row) then multiset(g.rows)[row] else 0
      invariant (forall m :: 0 <= m < k ==> Selected(selections, cols[m]) == []) ==> h == g
    {
      h := SelectionStep(g, cols, selections, k, h);
      k := k + 1;
    }
    CountsGiveMembers(g, cols, selections, k, h.rows);
  }

  /** The frame the sidebar hands to the Dashboard page (`df_display`). */
  method DisplayFrame(f: DataFrame, t: ColumnTypes, page: string, parse: string -> Option<int>,
                      range: DateRange, selections: map<string, seq<string>>) returns (g: DataFrame)
    requires Rectangular(f) && NamesWithin(t.date, f) && NamesWithin(t.categorical, f)
    ensures page != DashboardPage ==> g == f
    ensures g.columns == f.columns && Rectangular(g)
    ensures SubseqOf(g.rows, f.rows)
    ensures page == DashboardPage ==> var d := DateFiltered(f, t, parse, range);
      && (forall row :: row in g.rows <==> row in d.rows && PassesFirst(d, FilterColumns(d, t), selections, |FilterColumns(d, t)|, row))
      && (forall row :: multiset(g.rows)[row] ==
            if PassesFirst(d, FilterColumns(d, t), selections, |FilterColumns(d, t)|, row) then multiset(d.rows)[row] else 0)
    ensures page == DashboardPage && |t.date| == 0 && (forall c :: c in t.categorical ==> Selected(selections, c) == []) ==> g == f
  {
    if page != DashboardPage {
      SubseqRefl(f.rows);
      return f;
    }
    var d := DateFiltered(f, t, parse, range);
    var cols := FilterColumns(d, t);
    g := ApplySelections(d, cols, selections);
    SubseqTrans(g.rows, d.rows, f.rows);
  }
}
