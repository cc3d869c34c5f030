/** Loading an uploaded file (src/loader.py): the reader is chosen by the
    file name's extension, and rows with no value at all are dropped. The
    pandas readers themselves are an oracle: a reader applied to the upload
    either yields a frame or raises. */
module Loader {
  import opened Optional
  import opened Seqs
  import opened Text
  import opened Frames

  datatype Reader = CsvReader | ExcelReader

  /** What `pd.read_csv(file)` or `pd.read_excel(file)` does with the upload. */
  datatype ReadOutcome = Read(frame: DataFrame) | ReadFailed(error: string)

  /** The outcome of `load_data`: the frame it returns (`None` otherwise) and
      the text it passes to `st.error`, if any. */
  datatype Load = Load(frame: Option<DataFrame>, error: Option<string>)

  const ErrorPrefix: string := "Error loading file: "

  /** `.csv` is checked first; the comparison is case-sensitive. */
  function ChooseReader(name: string): (r: Option<Reader>)
    ensures r == Some(CsvReader) <==> EndsWith(name, ".csv")
    ensures r == Some(ExcelReader) <==> EndsWith(name, ".xlsx")
    ensures r == None <==> !EndsWith(name, ".csv") && !EndsWith(name, ".xlsx")
  {
    SuffixesExclusive(name);
    if EndsWith(name, ".csv") then Some(CsvReader)
    else if EndsWith(name, ".xlsx") then Some(ExcelReader)
    else None
  }

  /** No name ends with both extensions, so the order of the tests never
      decides between them. */
  lemma SuffixesExclusive(name: string)
    ensures !(EndsWith(name, ".csv") && EndsWith(name, ".xlsx"))
  {
    if EndsWith(name, ".csv") {
      assert name[|name| - 4..][3] == name[|name| - 1] == 'v';
      assert |name| >= 5 ==> name[|name| - 5..][4] == name[|name| - 1];
    }
  }

  /** The row has at least one present cell. */
  predicate HasValue(row: Row)
  {
    exists k :: 0 <= k < |row| && row[k].Value?
  }

  /** `df.dropna(how='all')` on the rows. */
  function DropEmptyRows(rows: seq<Row>): (r: seq<Row>)
    ensures forall row :: row in r <==> row in rows && HasValue(row)
    ensures forall row :: multiset(r)[row] == if HasValue(row) then multiset(rows)[row] else 0
    ensures SubseqOf(r, rows)
  {
    FilterIsSubseq(rows, HasValue);
    FilterCounts(rows, HasValue);
    FilterMembers(rows, HasValue);
    Filter(rows, HasValue)
  }

  /** Dropping empty rows from a frame with none changes nothing. */
  lemma DropKeepsValuedRows(rows: seq<Row>)
    requires forall i :: 0 <= i < |rows| ==> HasValue(rows[i])
    ensures DropEmptyRows(rows) == rows
  {
    FilterKeepsAll(rows, HasValue);
  }

  lemma DropEmptyRowsIdempotent(rows: seq<Row>)
    ensures DropEmptyRows(DropEmptyRows(rows)) == DropEmptyRows(rows)
  {
    var once := DropEmptyRows(rows);
    DropKeepsValuedRows(once);
  }

  /** `load_data(file)` for an upload named `name`, with `read` standing for
      the reader applied to the upload's contents. */
  function LoadData(name: string, read: Reader -> ReadOutcome): (r: Load)
    ensures ChooseReader(name).None? ==> r == Load(None, None)
    ensures r.frame.None? <==> ChooseReader(name).None? || read(ChooseReader(name).value).ReadFailed?
    ensures r.error.Some? <==> ChooseReader(name).Some? && read(ChooseReader(name).value).ReadFailed?
    ensures r.error.Some? ==> r.error.value == ErrorPrefix + read(ChooseReader(name).value).error
    ensures r.frame.Some? ==> var g := read(ChooseReader(name).value).frame;
      && r.frame.value.columns == g.columns
      && (forall i :: 0 <= i < |r.frame.value.rows| ==> HasValue(r.frame.value.rows[i]))
      && (forall row :: row in g.rows && HasValue(row) ==> row in r.frame.value.rows)
      && (forall row :: multiset(r.frame.value.rows)[row] == if HasValue(row) then multiset(g.rows)[row] else 0)
      && SubseqOf(r.frame.value.rows, g.rows)
  {
    match ChooseReader(name)
    case None => Load(None, None)
    case Some(reader) =>
      match read(reader)
      case ReadFailed(e) => Load(None, Some(ErrorPrefix + e))
      case Read(g) => Load(Some(WithRows(g, DropEmptyRows(g.rows))), None)
  }

  /** An unsupported extension never reaches a reader: the result is the same
      whatever the readers would have done. */
  lemma UnsupportedIgnoresReaders(name: string, read1: Reader -> ReadOutcome, read2: Reader -> ReadOutcome)
    requires !EndsWith(name, ".csv") && !EndsWith(name, ".xlsx")
    ensures LoadData(name, read1) == LoadData(name, read2) == Load(None, None)
  {
  }

  /** The loaded frame is as well-formed as the one the reader built, keeps its
      column names, and has no more rows. */
  lemma LoadKeepsShape(name: string, read: Reader -> ReadOutcome)
    requires LoadData(name, read).frame.Some?
    ensures var g := read(ChooseReader(name).value).frame;
      var h := LoadData(name, read).frame.value;
      && ColumnNames(h) == ColumnNames(g)
      && |h.rows| <= |g.rows|
      && (WellFormed(g) ==> WellFormed(h))
  {
    var g := read(ChooseReader(name).value).frame;
    var h := LoadData(name, read).frame.value;
    SubseqMembers(h.rows, g.rows);
    assert h == WithRows(g, DropEmptyRows(g.rows));
  }
}
