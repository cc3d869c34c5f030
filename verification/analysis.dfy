/** Column classification, KPI selection and the one-line dataset summary
    (src/analysis.py). */
module Analysis {
  import opened Optional
  import opened Seqs
  import opened Text
  import opened StableSort
  import opened Frames

  /** The `col_types` dictionary: column names per classification label. */
  datatype ColumnTypes = ColumnTypes(numerical: seq<string>, categorical: seq<string>, date: seq<string>)

  /** Every name the classification lists is a column of `f`. */
  ghost predicate TypesWithin(t: ColumnTypes, f: DataFrame)
  {
    forall n :: n in t.numerical || n in t.categorical || n in t.date ==> n in ColumnNames(f)
  }

  /* ---------------------------------------------------------------------
     get_column_types
     --------------------------------------------------------------------- */

  predicate IsObjectLike(d: Dtype)
  {
    d == Object || d == Category
  }

  /** `pd.to_datetime(df[col], errors='raise')` returns without raising: every
      present value of column `j` parses. `parse` stands for pandas' parser on
      one value (a day number, or `None` where it raises). */
  predicate ParsesAsDates(f: DataFrame, j: nat, parse: string -> Option<int>)
    requires Rectangular(f) && j < |f.columns|
  {
    forall i :: 0 <= i < |f.rows| && f.rows[i][j].Value? ==> parse(f.rows[i][j].text).Some?
  }

  /** `select_dtypes(include=[np.number])` as a test on a name. */
  function IsNumericName(f: DataFrame): string -> bool
  {
    n => DtypeOf(f, n).Some? && IsNumber(DtypeOf(f, n).value)
  }

  /** `select_dtypes(include=['object', 'category'])` as a test on a name. */
  function IsObjectLikeName(f: DataFrame): string -> bool
  {
    n => DtypeOf(f, n).Some? && IsObjectLike(DtypeOf(f, n).value)
  }

  /** The date heuristic as a test on a name. */
  function IsDateName(f: DataFrame, parse: string -> Option<int>): string -> bool
  {
    n => Rectangular(f) && n in ColumnNames(f) && ParsesAsDates(f, ColumnOf(f, n), parse)
  }

  function ObjectLikeNames(f: DataFrame): seq<string>
  {
    Filter(ColumnNames(f), IsObjectLikeName(f))
  }

  /** `get_column_types(df)`: the numeric columns, then the object/category
      columns split by the date heuristic, each list in column order. */
  function GetColumnTypes(f: DataFrame, parse: string -> Option<int>): (t: ColumnTypes)
    requires WellFormed(f)
    ensures SubseqOf(t.numerical, ColumnNames(f))
    ensures SubseqOf(t.date, ObjectLikeNames(f)) && SubseqOf(t.categorical, ObjectLikeNames(f))
  {
    var numerical := Filter(ColumnNames(f), IsNumericName(f));
    var candidates := ObjectLikeNames(f);
    var date := Filter(candidates, IsDateName(f, parse));
    var categorical := Filter(candidates, Undated(date));
    FilterIsSubseq(ColumnNames(f), IsNumericName(f));
    FilterIsSubseq(candidates, IsDateName(f, parse));
    FilterIsSubseq(candidates, Undated(date));
    ColumnTypes(numerical, categorical, date)
  }

  /** Not among the date columns. */
  function Undated(date: seq<string>): string -> bool
  {
    n => n !in date
  }

  /** Each list holds exactly the names that pass its test. */
  lemma ClassificationMembers(f: DataFrame, parse: string -> Option<int>)
    requires WellFormed(f)
    ensures var t := GetColumnTypes(f, parse);
      && (forall n :: n in t.numerical <==> n in ColumnNames(f) && IsNumericName(f)(n))
      && (forall n :: n in ObjectLikeNames(f) <==> n in ColumnNames(f) && IsObjectLikeName(f)(n))
      && (forall n :: n in t.date <==> n in ObjectLikeNames(f) && IsDateName(f, parse)(n))
      && (forall n :: n in t.categorical <==> n in ObjectLikeNames(f) && n !in t.date)
  {
    var t := GetColumnTypes(f, parse);
    FilterMembers(ColumnNames(f), IsNumericName(f));
    FilterMembers(ColumnNames(f), IsObjectLikeName(f));
    FilterMembers(ObjectLikeNames(f), IsDateName(f, parse));
    FilterMembers(ObjectLikeNames(f), Undated(t.date));
  }

  /** Where one column goes: numerical exactly when its dtype is a number
      (numeric or timedelta); date exactly when it is an object/category column
      every present value of which parses; categorical exactly when it is an
      object/category column some value of which does not. A boolean or
      datetime column is in no list. */
  lemma ColumnClassification(f: DataFrame, parse: string -> Option<int>, j: nat)
    requires WellFormed(f) && j < |f.columns|
    ensures var t := GetColumnTypes(f, parse); var c := f.columns[j];
      && (c.name in t.numerical <==> IsNumber(c.dtype))
      && (c.name in t.date <==> IsObjectLike(c.dtype) && ParsesAsDates(f, j, parse))
      && (c.name in t.categorical <==> IsObjectLike(c.dtype) && !ParsesAsDates(f, j, parse))
  {
    var t := GetColumnTypes(f, parse);
    var c := f.columns[j];
    ClassificationMembers(f, parse);
    assert c.name in ColumnNames(f);
    assert ColumnOf(f, c.name) == j;
    assert DtypeOf(f, c.name) == Some(c.dtype);
  }

  /** The classification lists only columns of the frame, and no name in two lists. */
  lemma ClassificationDisjoint(f: DataFrame, parse: string -> Option<int>)
    requires WellFormed(f)
    ensures var t := GetColumnTypes(f, parse);
      && TypesWithin(t, f)
      && (forall n :: !(n in t.numerical && n in t.categorical))
      && (forall n :: !(n in t.numerical && n in t.date))
      && (forall n :: !(n in t.categorical && n in t.date))
  {
    var t := GetColumnTypes(f, parse);
    ClassificationMembers(f, parse);
    forall n | n in t.numerical || n in t.categorical || n in t.date
      ensures n in ColumnNames(f)
      ensures !(n in t.numerical && n in t.categorical)
      ensures !(n in t.numerical && n in t.date)
    {
      assert n in t.categorical || n in t.date ==> n in ObjectLikeNames(f);
      var j := ColumnOf(f, n);
      ColumnClassification(f, parse, j);
    }
  }

  /** Date promotion takes columns out of the categorical list and adds none:
      the categorical and date lists together are the object/category columns. */
  lemma ClassificationSplitsCandidates(f: DataFrame, parse: string -> Option<int>)
    requires WellFormed(f)
    ensures var t := GetColumnTypes(f, parse);
      multiset(t.categorical) + multiset(t.date) == multiset(ObjectLikeNames(f))
  {
    var t := GetColumnTypes(f, parse);
    var candidates := ObjectLikeNames(f);
    ClassificationMembers(f, parse);
    FilterSplits(candidates, IsDateName(f, parse), Undated(t.date));
  }

  /** The three lists never hold more names than the frame has columns. */
  lemma ClassificationFitsColumns(f: DataFrame, parse: string -> Option<int>)
    requires WellFormed(f)
    ensures var t := GetColumnTypes(f, parse);
      |t.numerical| + |t.categorical| + |t.date| <= |f.columns|
  {
    var t := GetColumnTypes(f, parse);
    DisjointFiltersFit(ColumnNames(f), IsNumericName(f), IsObjectLikeName(f));
    ClassificationSplitsCandidates(f, parse);
    assert |multiset(t.categorical) + multiset(t.date)| == |ObjectLikeNames(f)|;
  }

  /** The heuristic's documented boundary: with no rows there is nothing that
      fails to parse, so every object/category column becomes a date column. */
  lemma EmptyFramePromotesAll(f: DataFrame, parse: string -> Option<int>)
    requires WellFormed(f) && |f.rows| == 0
    ensures var t := GetColumnTypes(f, parse);
      t.categorical == [] && forall n :: n in ObjectLikeNames(f) ==> n in t.date
  {
    var t := GetColumnTypes(f, parse);
    ClassificationMembers(f, parse);
    forall n | n in ObjectLikeNames(f)
      ensures n in t.date
    {
      var j := ColumnOf(f, n);
      assert IsObjectLike(f.columns[j].dtype);
    }
  }

  /* ---------------------------------------------------------------------
     identify_key_metrics
     --------------------------------------------------------------------- */

  const PriorityKeywords: seq<string> := ["sales", "revenue", "profit", "amount", "cost", "price", "total"]

  /** `any(k in col.lower() for k in priority_keywords)` */
  predicate HasPriorityKeyword(name: string)
  {
    exists k :: k in PriorityKeywords && Contains(Lower(name), k)
  }

  /** A column's KPI score: 2 for a keyword in its name, plus 1 for more than
      10 distinct values. */
  function Score(f: DataFrame, name: string): (s: int)
    requires Rectangular(f) && name in ColumnNames(f)
    ensures 0 <= s <= 3
    ensures s >= 2 <==> HasPriorityKeyword(name)
    ensures s % 2 == 1 <==> NUnique(f, name) > 10
  {
    (if HasPriorityKeyword(name) then 2 else 0) + (if NUnique(f, name) > 10 then 1 else 0)
  }

  ghost predicate NamesWithin(names: seq<string>, f: DataFrame)
  {
    forall n :: n in names ==> n in ColumnNames(f)
  }

  lemma NameWithin(names: seq<string>, f: DataFrame, n: string)
    requires NamesWithin(names, f) && n in names
    ensures n in ColumnNames(f)
  {
  }

  /** The `scored` list: each candidate with its score, negated so that an
      ascending stable sort is Python's `sort(reverse=True)`. */
  function Scored(f: DataFrame, names: seq<string>): (r: seq<Keyed>)
    requires Rectangular(f) && NamesWithin(names, f)
    ensures |r| == |names|
    ensures forall i :: 0 <= i < |r| ==> r[i] == Keyed(names[i], -Score(f, names[i]))
  {
    seq(|names|, i requires 0 <= i < |names| => Keyed(names[i], -Score(f, names[i])))
  }

  function KeyNames(xs: seq<Keyed>): (r: seq<string>)
    ensures |r| == |xs|
    ensures forall i :: 0 <= i < |xs| ==> r[i] == xs[i].name
  {
    seq(|xs|, i requires 0 <= i < |xs| => xs[i].name)
  }

  /** The candidates in the order `scored.sort(key=..., reverse=True)` leaves them. */
  function Ranked(f: DataFrame, names: seq<string>): seq<Keyed>
    requires Rectangular(f) && NamesWithin(names, f)
  {
    Sort(Scored(f, names))
  }

  /** Every ranked entry is a candidate carrying its own (negated) score. */
  lemma RankedEntries(f: DataFrame, names: seq<string>)
    requires Rectangular(f) && NamesWithin(names, f)
    ensures var ranked := Ranked(f, names);
      forall i :: 0 <= i < |ranked| ==>
        ranked[i].name in names && ranked[i].name in ColumnNames(f) && ranked[i].key == -Score(f, ranked[i].name)
  {
    var scored := Scored(f, names);
    var ranked := Ranked(f, names);
    forall i | 0 <= i < |ranked|
      ensures ranked[i].name in names && ranked[i].key == -Score(f, ranked[i].name)
    {
      assert ranked[i] in scored;
      var p :| 0 <= p < |scored| && scored[p] == ranked[i];
    }
  }

  /** `identify_key_metrics(df, col_types)`: up to three numerical columns,
      taken from the front of the ranking. */
  function IdentifyKeyMetrics(f: DataFrame, t: ColumnTypes): (r: seq<string>)
    requires Rectangular(f) && NamesWithin(t.numerical, f)
    ensures |r| == if |t.numerical| < 3 then |t.numerical| else 3
    ensures forall n :: n in r ==> n in t.numerical
  {
    var ranked := Ranked(f, t.numerical);
    RankedEntries(f, t.numerical);
    KeyNames(Take(ranked, 3))
  }

  /** With at most three numerical columns, every one of them is a key metric. */
  lemma FewNumericalAllChosen(f: DataFrame, t: ColumnTypes, n: string)
    requires Rectangular(f) && NamesWithin(t.numerical, f)
    requires |t.numerical| <= 3 && n in t.numerical
    ensures n in IdentifyKeyMetrics(f, t)
  {
    var scored := Scored(f, t.numerical);
    var ranked := Ranked(f, t.numerical);
    var p :| 0 <= p < |t.numerical| && t.numerical[p] == n;
    assert scored[p] in ranked;
    var q :| 0 <= q < |ranked| && ranked[q] == scored[p];
    assert Take(ranked, 3) == ranked;
    assert IdentifyKeyMetrics(f, t)[q] == n;
  }

  /** The chosen columns come highest score first. */
  lemma KeyMetricsOrdered(f: DataFrame, t: ColumnTypes)
    requires Rectangular(f) && NamesWithin(t.numerical, f)
    ensures var r := IdentifyKeyMetrics(f, t);
      forall i, j :: 0 <= i < j < |r| ==> Score(f, r[i]) >= Score(f, r[j])
  {
    var ranked := Ranked(f, t.numerical);
    var r := IdentifyKeyMetrics(f, t);
    RankedEntries(f, t.numerical);
    forall i, j | 0 <= i < j < |r|
      ensures Score(f, r[i]) >= Score(f, r[j])
    {
      assert r[i] == ranked[i].name && r[j] == ranked[j].name;
      assert ranked[i].key <= ranked[j].key;
    }
  }

  /** In an ascending list, an entry outside the first `k` has a key no smaller
      than any entry inside them. */
  lemma TakenKeysBelow(ranked: seq<Keyed>, k: nat, q: nat, i: nat)
    requires Ascending(ranked) && q < |ranked| && i < |Take(ranked, k)|
    requires ranked[q].name !in KeyNames(Take(ranked, k))
    ensures ranked[i].key <= ranked[q].key
  {
  }

  /** One numerical column left out against one chosen. */
  lemma KeyMetricBeats(f: DataFrame, t: ColumnTypes, n: string, m: string)
    requires Rectangular(f) && NamesWithin(t.numerical, f)
    requires n in t.numerical && n !in IdentifyKeyMetrics(f, t) && m in IdentifyKeyMetrics(f, t)
    ensures Score(f, n) <= Score(f, m)
  {
    var ranked := Ranked(f, t.numerical);
    var r := IdentifyKeyMetrics(f, t);
    CandidateRanked(f, t.numerical, n);
    var q :| 0 <= q < |ranked| && ranked[q] == Keyed(n, -Score(f, n));
    var i :| 0 <= i < |r| && r[i] == m;
    RankedEntries(f, t.numerical);
    TakenKeysBelow(ranked, 3, q, i);
  }

  /** Every candidate has an entry in the ranking. */
  lemma CandidateRanked(f: DataFrame, names: seq<string>, n: string)
    requires Rectangular(f) && NamesWithin(names, f) && n in names
    ensures n in ColumnNames(f) && Keyed(n, -Score(f, n)) in Ranked(f, names)
  {
    var scored := Scored(f, names);
    var p :| 0 <= p < |names| && names[p] == n;
    assert scored[p] in scored;
  }

  /** No numerical column left out scores higher than one that was chosen. */
  lemma KeyMetricsAreBest(f: DataFrame, t: ColumnTypes)
    requires Rectangular(f) && NamesWithin(t.numerical, f)
    ensures var r := IdentifyKeyMetrics(f, t);
      forall n, m :: n in t.numerical && n !in r && m in r ==> Score(f, n) <= Score(f, m)
  {
    forall n, m | n in t.numerical && n !in IdentifyKeyMetrics(f, t) && m in IdentifyKeyMetrics(f, t)
      ensures Score(f, n) <= Score(f, m)
    {
      KeyMetricBeats(f, t, n, m);
    }
  }

  /** A test on names: the column scores `s`. */
  function ScoreIs(f: DataFrame, s: int): string -> bool
  {
    n => Rectangular(f) && n in ColumnNames(f) && Score(f, n) == s
  }

  /** Selecting the entries with key `k` selects the names a test picks out,
      when the test holds exactly of the names carrying key `k`. */
  lemma {:induction false} KeyNamesWithKey(xs: seq<Keyed>, k: int, p: string -> bool)
    requires forall i :: 0 <= i < |xs| ==> (p(xs[i].name) <==> xs[i].key == k)
    ensures KeyNames(WithKey(xs, k)) == Filter(KeyNames(xs), p)
    decreases |xs|
  {
    if |xs| > 0 {
      KeyNamesWithKey(xs[1..], k, p);
      var w := if xs[0].key == k then [xs[0]] else [];
      assert WithKey(xs, k) == w + WithKey(xs[1..], k);
      KeyNamesAppend(w, WithKey(xs[1..], k));
      FilterCons(KeyNames(xs), p);
      assert KeyNames(xs)[1..] == KeyNames(xs[1..]);
    }
  }

  /** The names of the first `k` entries are names of entries. */
  lemma FrontNames(xs: seq<Keyed>, k: nat)
    ensures forall n :: n in KeyNames(Take(xs, k)) ==> exists e :: e in xs && e.name == n
  {
    var r := KeyNames(Take(xs, k));
    forall n | n in r
      ensures exists e :: e in xs && e.name == n
    {
      var i :| 0 <= i < |r| && r[i] == n;
      assert xs[i] in xs;
    }
  }

  lemma KeyNamesAppend(a: seq<Keyed>, b: seq<Keyed>)
    ensures KeyNames(a + b) == KeyNames(a) + KeyNames(b)
  {
  }

  /** On scored entries, "the column scores `s`" and "the entry has key `-s`"
      are the same test. */
  lemma ScoreIsMatchesKey(f: DataFrame, xs: seq<Keyed>, s: int)
    requires Rectangular(f)
    requires forall i :: 0 <= i < |xs| ==> xs[i].name in ColumnNames(f) && xs[i].key == -Score(f, xs[i].name)
    ensures forall i :: 0 <= i < |xs| ==> (ScoreIs(f, s)(xs[i].name) <==> xs[i].key == -s)
  {
  }

  lemma KeyNamesPrefix(xs: seq<Keyed>, n: nat)
    requires n <= |xs|
    ensures KeyNames(xs[..n]) == KeyNames(xs)[..n]
  {
  }

  /** The tie-order argument on entries: a front part of the sorted list,
      filtered by a test matching key `k`, is a front part of the filtered input. */
  lemma SortedFrontKeepsOrder(xs: seq<Keyed>, n: nat, k: int, p: string -> bool)
    requires n <= |xs|
    requires forall i :: 0 <= i < |xs| ==> (p(xs[i].name) <==> xs[i].key == k)
    ensures var chosen := Filter(KeyNames(Sort(xs)[..n]), p);
      var tied := Filter(KeyNames(xs), p);
      |chosen| <= |tied| && chosen == tied[..|chosen|]
  {
    var top := Sort(xs)[..n];
    forall i | 0 <= i < |top|
      ensures p(top[i].name) <==> top[i].key == k
    {
      assert top[i] in xs;
    }
    KeyNamesWithKey(top, k, p);
    KeyNamesWithKey(xs, k, p);
    SortedPrefixWithKey(xs, n, k);
    KeyNamesPrefix(WithKey(xs, k), |WithKey(top, k)|);
  }

  /** Ties keep the numerical-column order: among the columns with any one
      score, the chosen ones are the first such columns of `numerical`, in
      that order. */
  lemma KeyMetricsKeepTieOrder(f: DataFrame, t: ColumnTypes, s: int)
    requires Rectangular(f) && NamesWithin(t.numerical, f)
    ensures var chosen := Filter(IdentifyKeyMetrics(f, t), ScoreIs(f, s));
      var tied := Filter(t.numerical, ScoreIs(f, s));
      |chosen| <= |tied| && chosen == tied[..|chosen|]
  {
    var scored := Scored(f, t.numerical);
    var ranked := Ranked(f, t.numerical);
    var top := Take(ranked, 3);
    ScoreIsMatchesKey(f, scored, s);
    assert KeyNames(scored) == t.numerical;
    assert top == Sort(scored)[..|top|];
    SortedFrontKeepsOrder(scored, |top|, -s, ScoreIs(f, s));
  }

  /* ---------------------------------------------------------------------
     generate_summary_text
     --------------------------------------------------------------------- */

  /** `generate_summary_text(df, col_types)` */
  function SummaryText(f: DataFrame, t: ColumnTypes): (r: string)
    ensures StartsWith(r, "Dataset: **" + NatToString(|f.rows|) + " rows**, **" + NatToString(|f.columns|) + " columns** (")
    ensures EndsWith(r, NatToString(|t.numerical|) + " Num, " + NatToString(|t.categorical|) + " Cat).")
  {
    var shape := "Dataset: **" + NatToString(|f.rows|) + " rows**, **" + NatToString(|f.columns|) + " columns** (";
    var kinds := NatToString(|t.numerical|) + " Num, " + NatToString(|t.categorical|) + " Cat).";
    ConcatEnds(shape, kinds);
    shape + kinds
  }

  /** Date columns are not counted in the summary. */
  lemma SummaryIgnoresDates(f: DataFrame, t: ColumnTypes, dates: seq<string>)
    ensures SummaryText(f, t) == SummaryText(f, t.(date := dates))
  {
  }

  lemma CharOfConcat(s: string, t: string, k: int)
    ensures 0 <= k < |s| ==> (s + t)[k] == s[k]
    ensures |s| <= k < |s| + |t| ==> (s + t)[k] == t[k - |s|]
  {
  }

  /** Digits followed by a non-digit split a string in one way only. */
  lemma DigitsThenTextUnique(a: string, x: string, b: string, y: string)
    requires forall i :: 0 <= i < |a| ==> '0' <= a[i] <= '9'
    requires forall i :: 0 <= i < |b| ==> '0' <= b[i] <= '9'
    requires |x| > 0 && !('0' <= x[0] <= '9')
    requires |y| > 0 && !('0' <= y[0] <= '9')
    requires a + x == b + y
    ensures a == b && x == y
  {
    if |a| < |b| {
      CharOfConcat(a, x, |a|);
      CharOfConcat(b, y, |a|);
      assert false;
    } else if |b| < |a| {
      CharOfConcat(a, x, |b|);
      CharOfConcat(b, y, |b|);
      assert false;
    } else {
      assert a == (a + x)[..|a|] && b == (b + y)[..|b|];
      assert x == (a + x)[|a|..] && y == (b + y)[|b|..];
    }
  }

  /** The summary as one right-nested concatenation. */
  lemma SummaryNested(f: DataFrame, t: ColumnTypes)
    ensures SummaryText(f, t) == "Dataset: **" + (NatToString(|f.rows|) + (" rows**, **" + (NatToString(|f.columns|)
      + (" columns** (" + (NatToString(|t.numerical|) + (" Num, " + (NatToString(|t.categorical|) + " Cat).")))))))
  {
    var p, s1, s2, s3, s4 := "Dataset: **", " rows**, **", " columns** (", " Num, ", " Cat).";
    var a1, a2, a3, a4 := NatToString(|f.rows|), NatToString(|f.columns|), NatToString(|t.numerical|), NatToString(|t.categorical|);
    assert a3 + s3 + a4 + s4 == a3 + (s3 + (a4 + s4));
    assert p + a1 + s1 + a2 + s2 == p + (a1 + (s1 + (a2 + s2)));
    var k := a3 + (s3 + (a4 + s4));
    assert p + (a1 + (s1 + (a2 + s2))) + k == p + (a1 + (s1 + (a2 + (s2 + k))));
  }

  /** Reading a rendered count back: equal renderings mean equal counts. */
  lemma NatToStringInjective(m: nat, n: nat)
    requires NatToString(m) == NatToString(n)
    ensures m == n
  {
    NatToStringRoundTrip(m);
    NatToStringRoundTrip(n);
  }

  /** The summary determines the row, column, numerical and categorical
      counts it reports: two summaries are equal only when all four agree. */
  lemma SummaryDeterminesCounts(f: DataFrame, t: ColumnTypes, g: DataFrame, u: ColumnTypes)
    requires SummaryText(f, t) == SummaryText(g, u)
    ensures |f.rows| == |g.rows| && |f.columns| == |g.columns|
    ensures |t.numerical| == |u.numerical| && |t.categorical| == |u.categorical|
  {
    var p := "Dataset: **";
    var s1 := " rows**, **";
    var s2 := " columns** (";
    var s3 := " Num, ";
    var s4 := " Cat).";
    var a1, a2, a3, a4 := NatToString(|f.rows|), NatToString(|f.columns|), NatToString(|t.numerical|), NatToString(|t.categorical|);
    var b1, b2, b3, b4 := NatToString(|g.rows|), NatToString(|g.columns|), NatToString(|u.numerical|), NatToString(|u.categorical|);
    var x4, y4 := s4, s4;
    var x3, y3 := s3 + (a4 + x4), s3 + (b4 + y4);
    var x2, y2 := s2 + (a3 + x3), s2 + (b3 + y3);
    var x1, y1 := s1 + (a2 + x2), s1 + (b2 + y2);
    SummaryNested(f, t);
    SummaryNested(g, u);
    assert p + (a1 + x1) == p + (b1 + y1);
    assert a1 + x1 == (p + (a1 + x1))[|p|..];
    assert b1 + y1 == (p + (b1 + y1))[|p|..];
    DigitsThenTextUnique(a1, x1, b1, y1);
    NatToStringInjective(|f.rows|, |g.rows|);
    assert a2 + x2 == x1[|s1|..] && b2 + y2 == y1[|s1|..];
    DigitsThenTextUnique(a2, x2, b2, y2);
    NatToStringInjective(|f.columns|, |g.columns|);
    assert a3 + x3 == x2[|s2|..] && b3 + y3 == y2[|s2|..];
    DigitsThenTextUnique(a3, x3, b3, y3);
    NatToStringInjective(|t.numerical|, |u.numerical|);
    assert a4 + x4 == x3[|s3|..] && b4 + y4 == y3[|s3|..];
    DigitsThenTextUnique(a4, x4, b4, y4);
    NatToStringInjective(|t.categorical|, |u.categorical|);
  }
}
