/** `export_to_excel`: the sheet's cells, one row per batch entry under a header
    row, and the width each column is given. Styling and the workbook file are
    left to openpyxl and not modelled. */
module ExcelExport {
  import opened Wrappers
  import opened Text
  import opened Analysis
  import Ranking
  import ResultSection
  import Rows

  /** A cell holds a string or an integer. */
  datatype Cell = Label(text: string) | Number(value: int)

  /** Python's `str(cell.value)`. */
  function Shown(c: Cell): string {
    match c
    case Label(t) => t
    case Number(n) => IntToString(n)
  }

  const Headers: seq<string> := [
    "Tên", "Email", "Phone", "Điểm Tổng", "Skills Score",
    "Experience Score", "Education Score", "Match %",
    "Skills", "Red Flags", "Salary Range"]

  const ColumnCount := 11
  const NameColumn := 0
  const OverallColumn := 3
  const SkillsColumn := 8
  const RedFlagsColumn := 9
  const ListSeparator := ", "

  /** Columns 4 to 8 of the sheet (0-based 3 to 7) hold the scores. */
  predicate IsScoreColumn(col: int) {
    OverallColumn <= col < SkillsColumn
  }

  /** Each column of the row holds its field of the analysis: name, email and
      phone, the five scores as numbers, the skills and red flags joined with
      `", "`, and the salary range. */
  predicate Exports(row: seq<Cell>, a: AnalysisResult) {
    && |row| == ColumnCount
    && row[NameColumn] == Label(a.name) && row[1] == Label(a.email) && row[2] == Label(a.phone)
    && row[OverallColumn] == Number(a.overallScore) && row[4] == Number(a.skillsScore)
    && row[5] == Number(a.experienceScore) && row[6] == Number(a.educationScore)
    && row[7] == Number(a.matchPercentage)
    && row[SkillsColumn] == Label(Join(a.skills, ListSeparator))
    && row[RedFlagsColumn] == Label(Join(a.redFlags, ListSeparator))
    && row[10] == Label(a.salaryRange)
  }

  /** The row for one analysis. */
  function Row(a: AnalysisResult): (row: seq<Cell>)
    ensures Exports(row, a)
    ensures forall c :: 0 <= c < ColumnCount ==> (row[c].Number? <==> IsScoreColumn(c))
  {
    [Label(a.name), Label(a.email), Label(a.phone),
     Number(a.overallScore), Number(a.skillsScore), Number(a.experienceScore),
     Number(a.educationScore), Number(a.matchPercentage),
     Label(Join(a.skills, ListSeparator)), Label(Join(a.redFlags, ListSeparator)),
     Label(a.salaryRange)]
  }

  /** One entry's row. An entry without an analysis (an errored file) reads as
      an empty analysis: blank strings and zero scores, and no file name. */
  function ExportRow(item: BatchItem): (row: seq<Cell>)
    ensures |row| == ColumnCount
    ensures forall c :: 0 <= c < ColumnCount ==> (row[c].Number? <==> IsScoreColumn(c))
    ensures item.outcome.Analysed? ==> Exports(row, item.outcome.analysis)
    ensures item.outcome.Errored? ==>
      forall c :: 0 <= c < ColumnCount ==> Shown(row[c]) == (if IsScoreColumn(c) then "0" else "")
  {
    match item.outcome
    case Analysed(a) => Row(a)
    case Errored(_) =>
      var row := Row(Blank);
      assert Join([], ListSeparator) == "";
      row
  }

  /** `result.get("analysis", {})` with every `.get` falling back to its
      default. */
  const Blank := AnalysisResult("", "", "", "", [], "", "", [], [], [], "", [],
                                0, 0, 0, 0, 0, 0, [], [], [])

  /** The header row followed by one row per entry, in the order received. */
  function Sheet(results: seq<BatchItem>): (sheet: seq<seq<Cell>>)
    ensures |sheet| == |results| + 1
    ensures Rectangular(sheet)
    ensures forall c :: 0 <= c < ColumnCount ==> sheet[0][c] == Label(Headers[c])
    ensures forall i :: 0 <= i < |results| ==> sheet[i + 1] == ExportRow(results[i])
  {
    [seq(ColumnCount, c requires 0 <= c < ColumnCount => Label(Headers[c]))]
      + seq(|results|, i requires 0 <= i < |results| => ExportRow(results[i]))
  }

  /** A row loses nothing but the list boundaries: two analysed entries with
      the same row agree on every exported field, the lists as joined text. */
  lemma ExportRowDeterminesFields(x: BatchItem, y: BatchItem)
    requires x.outcome.Analysed? && y.outcome.Analysed?
    requires ExportRow(x) == ExportRow(y)
    ensures var a, b := x.outcome.analysis, y.outcome.analysis;
            && a.name == b.name && a.email == b.email && a.phone == b.phone
            && a.overallScore == b.overallScore && a.skillsScore == b.skillsScore
            && a.experienceScore == b.experienceScore && a.educationScore == b.educationScore
            && a.matchPercentage == b.matchPercentage && a.salaryRange == b.salaryRange
            && Join(a.skills, ListSeparator) == Join(b.skills, ListSeparator)
            && Join(a.redFlags, ListSeparator) == Join(b.redFlags, ListSeparator)
  {
    var r := ExportRow(x);
    assert r[NameColumn] == ExportRow(y)[NameColumn];
  }

  /** The list boundaries are lost: one skill containing the separator and
      the two skills on either side of it fill the same cell. */
  lemma ListCellAmbiguous(p: string, q: string)
    ensures Join([p + ListSeparator + q], ListSeparator) == Join([p, q], ListSeparator)
  {
    JoinCons(p, [q], ListSeparator);
    assert [p, q] == [p] + [q];
  }

  /** The export and the table agree on what they both show: the overall
      score, a present name, the start of the skills list, and a blank
      red-flags cell for a clean row (the converse fails for a single empty
      flag, which the table counts). */
  lemma ExportMatchesTable(rank: nat, item: BatchItem)
    ensures var row := ExportRow(item);
            var line := Rows.RowFor(rank, item);
            && row[OverallColumn] == Number(line.score)
            && (Shown(row[NameColumn]) != "" ==> line.name == Shown(row[NameColumn]))
            && StartsWith(Shown(row[SkillsColumn]), Join(line.skills, ListSeparator))
            && (line.flags == Rows.CleanText ==> Shown(row[RedFlagsColumn]) == "")
  {
    var f := Rows.FieldsOf(item);
    var line := Rows.RowFor(rank, item);
    JoinPrefix(f.skills, |line.skills|, ListSeparator);
    assert Shown(ExportRow(item)[SkillsColumn]) == Join(f.skills, ListSeparator);
    assert Shown(ExportRow(item)[NameColumn]) == f.name;
  }

  /** A join is empty only for no parts or one empty part. */
  lemma JoinEmpty(parts: seq<string>, sep: string)
    requires sep != ""
    ensures Join(parts, sep) == "" <==> parts == [] || parts == [""]
  {
    if |parts| > 1 {
      assert |Join(parts, sep)| >= |sep|;
    }
  }

  // ---------------------------------------------------------------------------
  // Column widths
  // ---------------------------------------------------------------------------

  const MaxWidth := 50
  const Padding := 2

  predicate Rectangular(sheet: seq<seq<Cell>>) {
    forall r :: 0 <= r < |sheet| ==> |sheet[r]| == ColumnCount
  }

  /** The largest of some lengths, 0 for none, taken from the back. */
  function MaxOf(xs: seq<nat>): nat {
    if xs == [] then 0
    else
      var before := MaxOf(xs[..|xs| - 1]);
      if xs[|xs| - 1] > before then xs[|xs| - 1] else before
  }

  /** The maximum bounds every length and is one of them. */
  lemma {:induction false} MaxOfBounds(xs: seq<nat>)
    ensures forall i :: 0 <= i < |xs| ==> xs[i] <= MaxOf(xs)
    ensures xs != [] ==> exists i :: 0 <= i < |xs| && xs[i] == MaxOf(xs)
    decreases |xs|
  {
    if xs != [] {
      var init := xs[..|xs| - 1];
      MaxOfBounds(init);
      assert forall i :: 0 <= i < |init| ==> xs[i] == init[i];
      if xs[|xs| - 1] < MaxOf(xs) {
        var w :| 0 <= w < |init| && init[w] == MaxOf(init);
        assert xs[w] == init[w];
      }
    }
  }

  /** `len(str(cell.value))` down one column. */
  function ColumnLengths(sheet: seq<seq<Cell>>, col: nat): (ls: seq<nat>)
    requires Rectangular(sheet) && col < ColumnCount
    ensures |ls| == |sheet|
  {
    seq(|sheet|, r requires 0 <= r < |sheet| => |Shown(sheet[r][col])|)
  }

  /** The longest `str(value)` in a column. */
  function ColumnMax(sheet: seq<seq<Cell>>, col: nat): nat
    requires Rectangular(sheet) && col < ColumnCount
  {
    MaxOf(ColumnLengths(sheet, col))
  }

  /** The column maximum bounds every value of the column and is one of them. */
  lemma ColumnMaxBounds(sheet: seq<seq<Cell>>, col: nat)
    requires Rectangular(sheet) && col < ColumnCount
    ensures forall r :: 0 <= r < |sheet| ==> |Shown(sheet[r][col])| <= ColumnMax(sheet, col)
    ensures sheet != [] ==> exists r :: 0 <= r < |sheet| && |Shown(sheet[r][col])| == ColumnMax(sheet, col)
  {
    var ls := ColumnLengths(sheet, col);
    MaxOfBounds(ls);
    assert forall r :: 0 <= r < |sheet| ==> ls[r] == |Shown(sheet[r][col])|;
  }

  /** The width openpyxl is told: two more than the longest value, at most 50. */
  function Width(sheet: seq<seq<Cell>>, col: nat): (w: int)
    requires Rectangular(sheet) && col < ColumnCount
    ensures Padding <= w <= MaxWidth
  {
    var m := ColumnMax(sheet, col);
    if m + Padding < MaxWidth then m + Padding else MaxWidth
  }

  /** Below the cap every value fits with its padding and the longest fills the
      column exactly. */
  lemma WidthFits(sheet: seq<seq<Cell>>, col: nat)
    requires Rectangular(sheet) && col < ColumnCount
    ensures forall r :: 0 <= r < |sheet| ==>
      |Shown(sheet[r][col])| + Padding <= Width(sheet, col) || Width(sheet, col) == MaxWidth
    ensures Width(sheet, col) < MaxWidth && sheet != [] ==>
      exists r :: 0 <= r < |sheet| && |Shown(sheet[r][col])| + Padding == Width(sheet, col)
  {
    ColumnMaxBounds(sheet, col);
  }

  /** The inner loop: the longest value in one column. */
  method Longest(sheet: seq<seq<Cell>>, col: nat) returns (longest: nat)
    requires Rectangular(sheet) && col < ColumnCount
    ensures longest == ColumnMax(sheet, col)
  {
    ghost var lengths := ColumnLengths(sheet, col);
    longest := 0;
    var r := 0;
    while r < |sheet|
      invariant 0 <= r <= |sheet|
      invariant longest == MaxOf(lengths[..r])
    {
      assert lengths[..r + 1][..r] == lengths[..r];
      var n := |Shown(sheet[r][col])|;
      assert lengths[..r + 1][r] == n;
      if n > longest {
        longest := n;
      }
      r := r + 1;
    }
    assert lengths[..r] == lengths;
  }

  /** The width of every column. */
  function Widths(sheet: seq<seq<Cell>>): (ws: seq<int>)
    requires Rectangular(sheet)
    ensures |ws| == ColumnCount
  {
    seq(ColumnCount, c requires 0 <= c < ColumnCount => Width(sheet, c))
  }

  /** One column's width from its longest value. */
  method ColumnWidth(sheet: seq<seq<Cell>>, col: nat) returns (w: int)
    requires Rectangular(sheet) && col < ColumnCount
    ensures w == Widths(sheet)[col]
  {
    var longest := Longest(sheet, col);
    w := if longest + Padding < MaxWidth then longest + Padding else MaxWidth;
  }

  /** The loop of `export_to_excel` that sizes the columns. */
  method ColumnWidths(sheet: seq<seq<Cell>>) returns (widths: seq<int>)
    requires Rectangular(sheet)
    ensures widths == Widths(sheet)
  {
    widths := [];
    var col := 0;
    while col < ColumnCount
      invariant 0 <= col <= ColumnCount
      invariant widths == Widths(sheet)[..col]
    {
      var w := ColumnWidth(sheet, col);
      assert Widths(sheet)[..col + 1] == Widths(sheet)[..col] + [Widths(sheet)[col]];
      widths := widths + [w];
      col := col + 1;
    }
  }

  /** Every column is at least as wide as its header plus the padding, unless
      it is capped. */
  lemma HeaderFits(results: seq<BatchItem>, col: nat)
    requires col < ColumnCount
    ensures Width(Sheet(results), col) == MaxWidth
         || |Headers[col]| + Padding <= Width(Sheet(results), col)
  {
    WidthFits(Sheet(results), col);
    assert Shown(Sheet(results)[0][col]) == Headers[col];
  }
}
