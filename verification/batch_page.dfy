/** The batch page: choosing up to ten files, starting an analysis, the results
    table in score order and the Excel export. React state is a `PageState`
    value; each handler maps a state to the next one together with the alert it
    raises and the request it sends, so "no request" and "no change" are plain
    equalities. */
module BatchPage {
  import opened Wrappers
  import opened Text
  import opened Analysis
  import opened Ranking
  import ResultSection
  import Rows

  // ---------------------------------------------------------------------------
  // Page state and handlers
  // ---------------------------------------------------------------------------

  datatype PageState = PageState(files: seq<Upload>, loading: bool, results: seq<BatchItem>,
                                 model: string, jobDescription: string)

  /** The state the page starts in. */
  const Initial := PageState([], false, [], "gemini-2.0-flash", "")

  /** Most files one batch takes. */
  const MaxFiles := 10

  datatype Request =
    | AnalyseBatch(files: seq<Upload>, jobDescription: string, model: string)
    | ExportExcel(results: seq<BatchItem>)

  /** What a handler leaves behind: the next state, an alert, a request. */
  datatype Step = Step(state: PageState, alert: Option<string>, request: Option<Request>)

  const NoFilesAlert := "Vui lòng chọn ít nhất 1 CV"
  const AnalysisFailedAlert := "Có lỗi xảy ra khi phân tích!"
  const ExportFailedAlert := "Có lỗi khi export Excel!"

  /** `handleFileChange`: keeps the first ten chosen files in their order; an
      absent file list leaves the state alone. */
  function SelectFiles(s: PageState, chosen: Option<seq<Upload>>): (s': PageState)
    ensures chosen.None? ==> s' == s
    ensures chosen.Some? ==>
      && |s'.files| == (if |chosen.value| < MaxFiles then |chosen.value| else MaxFiles)
      && s'.files == chosen.value[..|s'.files|]
    ensures s' == s.(files := s'.files)
  {
    match chosen
    case None => s
    case Some(fs) => s.(files := if |fs| <= MaxFiles then fs else fs[..MaxFiles])
  }

  /** Choosing the files already kept keeps all of them again. */
  lemma SelectFilesIdempotent(s: PageState, chosen: seq<Upload>)
    ensures var s' := SelectFiles(s, Some(chosen));
            SelectFiles(s', Some(s'.files)) == s'
  {
  }

  /** `handleBatchAnalyze` up to the request: with no files it only alerts;
      otherwise it sets `loading`, clears the old results and posts the files. */
  function StartAnalysis(s: PageState): (st: Step)
    ensures st.alert.Some? <==> s.files == []
    ensures s.files == [] ==> st.state == s && st.request == None
    ensures s.files != [] ==>
      && st.request == Some(AnalyseBatch(s.files, s.jobDescription, s.model))
      && st.state == s.(loading := true, results := [])
  {
    if |s.files| == 0 then Step(s, Some(NoFilesAlert), None)
    else Step(s.(loading := true, results := []), None,
              Some(AnalyseBatch(s.files, s.jobDescription, s.model)))
  }

  /** How the batch request ended: a parsed response, or any failure (a non-OK
      status, a network error, an unparseable body). */
  datatype BatchReply = Delivered(results: seq<BatchItem>) | Failed

  /** The rest of `handleBatchAnalyze`: store the results, or alert; `loading`
      is cleared either way. */
  function FinishAnalysis(s: PageState, reply: BatchReply): (st: Step)
    ensures !st.state.loading && st.request == None
    ensures st.alert.Some? <==> reply.Failed?
    ensures reply.Delivered? ==> st.state.results == reply.results
    ensures reply.Failed? ==> st.state.results == s.results
    ensures st.state.files == s.files
  {
    match reply
    case Delivered(rs) => Step(s.(results := rs, loading := false), None, None)
    case Failed => Step(s.(loading := false), Some(AnalysisFailedAlert), None)
  }

  /** A failed analysis leaves an empty table, not the previous results. */
  lemma FailedAnalysisClearsResults(s: PageState)
    requires s.files != []
    ensures var st := FinishAnalysis(StartAnalysis(s).state, Failed);
            st.state.results == [] && !st.state.loading
  {
  }

  /** `handleExportExcel`: posts the results as the backend returned them. */
  function StartExport(s: PageState): (st: Step)
    ensures st.state == s && st.alert == None
    ensures st.request == Some(ExportExcel(s.results))
    ensures multiset(st.request.value.results) == multiset(Rows.DisplayOrder(s.results))
  {
    Rows.DisplayIsPermutation(s.results);
    Step(s, None, Some(ExportExcel(s.results)))
  }

  /** The export body is the results in arrival order, which is not the order
      the table shows as soon as a later entry outscores an earlier one. */
  lemma ExportOrderDiffersFromTable(s: PageState, a: BatchItem, b: BatchItem)
    requires s.results == [a, b] && Score(a) < Score(b)
    ensures StartExport(s).request.value.results != Rows.DisplayOrder(s.results)
  {
    var r := Rows.DisplayOrder([a, b]);
    Rows.DisplayIsPermutation([a, b]);
    assert b in multiset(r);
    assert Score(r[0]) >= Score(b);
  }

  /** An export, whether it succeeds or fails, leaves the page as it was: the
      files, the table and the selections all survive. */
  lemma ExportKeepsPage(s: PageState, ok: bool)
    ensures FinishExport(StartExport(s).state, ok).state == s
    ensures StartExport(s).request.value.results == s.results
  {
  }

  /** A failed export only alerts. */
  function FinishExport(s: PageState, ok: bool): (st: Step)
    ensures st.state == s && st.request == None
    ensures st.alert.Some? <==> !ok
  {
    if ok then Step(s, None, None) else Step(s, Some(ExportFailedAlert), None)
  }
}

/** One row of the batch results table, and the table itself. */
module Rows {
  import opened Wrappers
  import opened Text
  import opened Analysis
  import opened Ranking
  import ResultSection

  /** The table's colour for a score band: same thresholds as the single-result
      view, shorter class names. */
  function RowClass(b: ResultSection.Band): string {
    match b
    case High => "text-green-600"
    case Middle => "text-yellow-600"
    case Low => "text-red-600"
  }

  datatype Row = Row(rank: nat, name: string, filename: string,
                     score: int, scoreClass: string,
                     matchText: string, matchClass: string,
                     skills: seq<string>, moreSkills: Option<string>,
                     flags: string)

  /** The fields of an entry the table reads. */
  datatype Fields = Fields(name: string, score: int, matchRate: int,
                           skills: seq<string>, redFlags: seq<string>)

  /** `result.analysis || {}`: an errored entry reads as an empty analysis. */
  function FieldsOf(item: BatchItem): Fields {
    match item.outcome
    case Analysed(a) => Fields(a.name, a.overallScore, a.matchPercentage, a.skills, a.redFlags)
    case Errored(_) => Fields("", 0, 0, [], [])
  }

  const MaxShownSkills := 3
  const CleanText := "✓ Clean"
  const FlagMark := "⚠️ "
  const FlagSuffix := " flag(s)"

  /** `⚠️ n flag(s)` for a positive count, `✓ Clean` for none. */
  function FlagText(n: nat): (r: string)
    ensures n == 0 <==> r == CleanText
    ensures n > 0 ==>
      && StartsWith(r, FlagMark)
      && NumberBefore(r[|FlagMark|..], FlagSuffix) == Some(n)
  {
    if n > 0 then
      var r := FlagMark + IntToString(n) + FlagSuffix;
      NumberBeforeSuffix(n, FlagSuffix);
      assert r[|FlagMark|..] == IntToString(n) + FlagSuffix;
      r
    else CleanText
  }

  /** How many skills a `+n` tag says are hidden. */
  function Hidden(tag: Option<string>): int {
    match tag
    case None => 0
    case Some(t) =>
      if |t| >= 2 && t[0] == '+' && IsNumeral(t[1..]) then ParseInt(t[1..]) else 0
  }

  /** The tag after the first three skills: `+n` for the n left out. */
  function MoreSkillsTag(total: nat): (tag: Option<string>)
    ensures tag.Some? <==> total > MaxShownSkills
    ensures Hidden(tag) == (if total > MaxShownSkills then total - MaxShownSkills else 0)
  {
    if total > MaxShownSkills then
      var digits := IntToString(total - MaxShownSkills);
      IntToStringRoundTrip(total - MaxShownSkills);
      assert ("+" + digits)[1..] == digits;
      Some("+" + digits)
    else None
  }

  /** The first three skills, or all of them when there are fewer. */
  function ShownSkills(skills: seq<string>): (r: seq<string>)
    ensures |r| == (if |skills| > MaxShownSkills then MaxShownSkills else |skills|)
    ensures r == skills[..|r|]
  {
    if |skills| <= MaxShownSkills then skills else skills[..MaxShownSkills]
  }

  /** The name cell of an entry without a name. */
  const NoName := "N/A"

  /** One table row: `result.analysis?.x || fallback` for each cell. */
  function RowFor(rank: nat, item: BatchItem): (row: Row)
    ensures row.rank == rank && row.filename == item.filename
    ensures FieldsOf(item).name != "" ==> row.name == FieldsOf(item).name
    ensures FieldsOf(item).name == "" ==> row.name == NoName
    ensures row.matchText == IntToString(FieldsOf(item).matchRate) + "%"
    ensures NumberBefore(row.matchText, "%") == Some(FieldsOf(item).matchRate)
    ensures row.flags == FlagText(|FieldsOf(item).redFlags|)
    ensures FieldsOf(item).redFlags != [] ==>
              NumberBefore(row.flags[|FlagMark|..], FlagSuffix) == Some(|FieldsOf(item).redFlags|)
    ensures row.score == Score(item)
    ensures row.scoreClass == row.matchClass == RowClass(ResultSection.BandOf(Score(item)))
    ensures |row.skills| <= MaxShownSkills && |row.skills| <= |FieldsOf(item).skills|
    ensures row.skills == FieldsOf(item).skills[..|row.skills|]
    ensures row.moreSkills.Some? <==> |FieldsOf(item).skills| > MaxShownSkills
    ensures |row.skills| + Hidden(row.moreSkills) == |FieldsOf(item).skills|
    ensures row.flags == CleanText <==> FieldsOf(item).redFlags == []
  {
    var f := FieldsOf(item);
    var colour := RowClass(ResultSection.BandOf(f.score));
    NumberBeforeSuffix(f.matchRate, "%");
    Row(rank, ResultSection.OrElse(f.name, NoName), item.filename, f.score, colour,
        IntToString(f.matchRate) + "%", colour, ShownSkills(f.skills),
        MoreSkillsTag(|f.skills|), FlagText(|f.redFlags|))
  }

  /** An errored entry shows as an unnamed, zero-score, clean row. */
  lemma ErroredRow(rank: nat, filename: string, failure: Failure)
    ensures var row := RowFor(rank, BatchItem(filename, Errored(failure)));
            row.name == NoName && row.score == 0 && row.matchText == "0%"
            && row.skills == [] && row.flags == CleanText
  {
  }

  /** The order the table lists the results in. */
  function DisplayOrder(results: seq<BatchItem>): seq<BatchItem> {
    SortByScore(results)
  }

  lemma DisplayIsPermutation(results: seq<BatchItem>)
    ensures multiset(DisplayOrder(results)) == multiset(results)
  {
  }

  /** The rows in display order, ranked from 1. */
  function Table(results: seq<BatchItem>): (rows: seq<Row>)
    ensures |rows| == |results|
    ensures forall i :: 0 <= i < |rows| ==> rows[i] == RowFor(i + 1, DisplayOrder(results)[i])
  {
    var sorted := DisplayOrder(results);
    var numbered := ResultSection.Numbered(sorted, 1);
    seq(|numbered|, i requires 0 <= i < |numbered| => RowFor(numbered[i].0, numbered[i].1))
  }

  /** Ranks run 1..n down the table and scores never increase along it. */
  lemma TableRankedByScore(results: seq<BatchItem>)
    ensures forall i :: 0 <= i < |Table(results)| ==> Table(results)[i].rank == i + 1
    ensures forall i, j :: 0 <= i < j < |Table(results)| ==>
      Table(results)[i].score >= Table(results)[j].score
  {
  }
}
