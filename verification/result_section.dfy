/** The single-result view: how one candidate's analysis is turned into what the
    page shows — score colours, the scoring panel and when it appears, the
    avatar initial, text fallbacks and the numbered lists. Markup, animation and
    layout are not modelled; only the values the view derives from the data. */
module ResultSection {
  import opened Wrappers
  import opened Text
  import opened Analysis

  // ---------------------------------------------------------------------------
  // Score colours
  // ---------------------------------------------------------------------------

  /** The three colour bands a score can fall into. */
  datatype Band = High | Middle | Low

  /** The banding rule: 80 and above, 60 up to 79, everything below 60 (negative
      and above-100 scores included, as nothing clamps them). */
  function BandOf(score: int): Band {
    if score >= 80 then High else if score >= 60 then Middle else Low
  }

  function Rank(b: Band): nat {
    match b
    case Low => 0
    case Middle => 1
    case High => 2
  }

  function TextClass(b: Band): string {
    match b
    case High => "text-green-600 dark:text-green-400"
    case Middle => "text-yellow-600 dark:text-yellow-400"
    case Low => "text-red-600 dark:text-red-400"
  }

  function BarClass(b: Band): string {
    match b
    case High => "bg-green-500"
    case Middle => "bg-yellow-500"
    case Low => "bg-red-500"
  }

  /** `getScoreColor`: the text colour of a score, chosen by its band. */
  function ScoreColor(score: int): (c: string)
    ensures c == TextClass(BandOf(score))
  {
    if score >= 80 then "text-green-600 dark:text-green-400"
    else if score >= 60 then "text-yellow-600 dark:text-yellow-400"
    else "text-red-600 dark:text-red-400"
  }

  /** `getScoreBgColor`: the bar colour of a score, chosen by the same band. */
  function ScoreBgColor(score: int): (c: string)
    ensures c == BarClass(BandOf(score))
  {
    if score >= 80 then "bg-green-500"
    else if score >= 60 then "bg-yellow-500"
    else "bg-red-500"
  }

  /** A higher score never lands in a lower band. */
  lemma BandMonotone(a: int, b: int)
    requires a <= b
    ensures Rank(BandOf(a)) <= Rank(BandOf(b))
  {
  }

  lemma TextClassInjective(b: Band, c: Band)
    ensures TextClass(b) == TextClass(c) <==> b == c
  {
  }

  lemma BarClassInjective(b: Band, c: Band)
    ensures BarClass(b) == BarClass(c) <==> b == c
  {
  }

  /** Text and bar never disagree: two scores share a text colour exactly when
      they share a bar colour, because both colours are a function of the band. */
  lemma ColoursAgree(a: int, b: int)
    ensures ScoreColor(a) == ScoreColor(b) <==> BandOf(a) == BandOf(b)
    ensures ScoreBgColor(a) == ScoreBgColor(b) <==> BandOf(a) == BandOf(b)
  {
    TextClassInjective(BandOf(a), BandOf(b));
    BarClassInjective(BandOf(a), BandOf(b));
  }

  // ---------------------------------------------------------------------------
  // Rendered numbers
  // ---------------------------------------------------------------------------

  /** The bar's CSS width, `score%`: no clamping, so 130 draws past the track and
      a negative score gives a negative width. */
  function BarWidth(score: int): (w: string)
    ensures NumberBefore(w, "%") == Some(score)
  {
    NumberBeforeSuffix(score, "%");
    IntToString(score) + "%"
  }

  // ---------------------------------------------------------------------------
  // Headline numbers
  // ---------------------------------------------------------------------------

  const HeadlineBase := "text-6xl font-bold mb-2 "

  /** The two large numbers at the top of the scoring panel. */
  datatype Headline = OverallScore | MatchRate

  /** The class attribute of a headline number as the view writes it: a plain
      quoted attribute, so the `${...}` inside is never interpolated and the
      class is the same text whatever the score. */
  function HeadlineClassAsWritten(h: Headline, score: int): (c: string)
    ensures StartsWith(c, HeadlineBase)
    ensures c[|c| - 1] == '}'
  {
    match h
    case OverallScore => HeadlineBase + "${getScoreColor(data.overall_score)}"
    case MatchRate => HeadlineBase + "${getScoreColor(data.match_percentage)}"
  }

  /** As written the headline colour never follows the score: any two scores
      get the same class, and it never ends in the score's colour class. */
  lemma HeadlineColourIgnored(h: Headline, a: int, b: int)
    ensures HeadlineClassAsWritten(h, a) == HeadlineClassAsWritten(h, b)
    ensures !EndsWith(HeadlineClassAsWritten(h, a), ScoreColor(a))
  {
    var c := HeadlineClassAsWritten(h, a);
    var colour := ScoreColor(a);
    assert c[|c| - 1] != colour[|colour| - 1];
  }

  /** The evidently intended class: the base followed by the score's colour,
      as the breakdown's readings already do. */
  function HeadlineClass(score: int): (c: string)
    ensures StartsWith(c, HeadlineBase)
    ensures EndsWith(c, TextClass(BandOf(score)))
  {
    StartsWithAppend(HeadlineBase, ScoreColor(score));
    EndsWithAppend(HeadlineBase, ScoreColor(score));
    HeadlineBase + ScoreColor(score)
  }

  /** With the correction two headline numbers look alike exactly when their
      scores share a band. */
  lemma HeadlineFollowsBand(a: int, b: int)
    ensures HeadlineClass(a) == HeadlineClass(b) <==> BandOf(a) == BandOf(b)
  {
    ColoursAgree(a, b);
    if HeadlineClass(a) == HeadlineClass(b) {
      assert HeadlineClass(a)[|HeadlineBase|..] == ScoreColor(a);
      assert HeadlineClass(b)[|HeadlineBase|..] == ScoreColor(b);
    }
  }

  // ---------------------------------------------------------------------------
  // The scoring panel
  // ---------------------------------------------------------------------------

  const ReadingBase := "text-sm font-bold "
  const BarBase := "h-3 rounded-full transition-all duration-1000 "

  /** One row of the score breakdown: caption, the `score/100` text and its
      class, the bar's class and width. */
  datatype Meter = Meter(caption: string, reading: string, readingClass: string,
                         barClass: string, width: string)

  function MeterFor(caption: string, score: int): (m: Meter)
    ensures Shows(m, caption, score)
  {
    NumberBeforeSuffix(score, "/100");
    Meter(caption, IntToString(score) + "/100", ReadingBase + ScoreColor(score),
          BarBase + ScoreBgColor(score), BarWidth(score))
  }

  /** What a meter must show for a score: the caption, the score read back from
      both the text and the bar width, and the one band's two colours after
      each element's fixed classes. */
  predicate Shows(m: Meter, caption: string, score: int) {
    && m.caption == caption
    && NumberBefore(m.reading, "/100") == Some(score)
    && NumberBefore(m.width, "%") == Some(score)
    && m.readingClass == ReadingBase + TextClass(BandOf(score))
    && m.barClass == BarBase + BarClass(BandOf(score))
  }

  const Captions: seq<string> :=
    ["Kỹ năng (30%)", "Kinh nghiệm (30%)", "Học vấn (20%)", "Kỹ năng mềm (20%)"]

  /** The four sub-scores in the order the breakdown lists them. */
  function SubScores(r: AnalysisResult): seq<int> {
    [r.skillsScore, r.experienceScore, r.educationScore, r.softSkillsScore]
  }

  /** One meter per caption, each showing the score at the same position. */
  function Meters(captions: seq<string>, scores: seq<int>): (ms: seq<Meter>)
    requires |captions| == |scores|
    ensures |ms| == |captions|
    ensures forall i :: 0 <= i < |ms| ==> Shows(ms[i], captions[i], scores[i])
    decreases |captions|
  {
    if captions == [] then []
    else [MeterFor(captions[0], scores[0])] + Meters(captions[1..], scores[1..])
  }

  /** The breakdown: skills, experience, education and soft skills, in that order. */
  function Breakdown(r: AnalysisResult): (ms: seq<Meter>)
    ensures |ms| == |Captions|
    ensures forall i :: 0 <= i < |ms| ==> Shows(ms[i], Captions[i], SubScores(r)[i])
  {
    Meters(Captions, SubScores(r))
  }

  /** The list, or nothing when it is empty. */
  function NonEmpty(xs: seq<string>): (r: Option<seq<string>>)
    ensures r.Some? <==> |xs| > 0
    ensures r.Some? ==> r.value == xs
  {
    if |xs| > 0 then Some(xs) else None
  }

  /** The matching/missing block: each side only when its list has entries. */
  datatype SkillsBlock = SkillsBlock(matching: Option<seq<string>>, missing: Option<seq<string>>)

  /** The panel: the two headline numbers with their classes as the view writes
      them (see `HeadlineClassAsWritten`), the breakdown, the skills block and
      the red flags. */
  datatype Panel = Panel(overall: int, overallClass: string, matchRate: int, matchClass: string,
                         breakdown: seq<Meter>,
                         skills: Option<SkillsBlock>, redFlags: Option<seq<string>>)

  /** `hasJobMatching`: either headline number is positive. */
  predicate HasJobMatching(r: AnalysisResult) {
    r.overallScore > 0 || r.matchPercentage > 0
  }

  /** The scoring panel, drawn only when there is job matching. The headline
      classes are the uninterpolated text, so they never carry the band colour. */
  function ScoringPanel(r: AnalysisResult): (p: Option<Panel>)
    ensures p.Some? <==> r.overallScore > 0 || r.matchPercentage > 0
    ensures p.Some? ==> p.value.overall == r.overallScore && p.value.matchRate == r.matchPercentage
    ensures p.Some? ==>
      && p.value.overallClass == HeadlineClassAsWritten(OverallScore, r.overallScore)
      && p.value.matchClass == HeadlineClassAsWritten(MatchRate, r.matchPercentage)
      && !EndsWith(p.value.overallClass, ScoreColor(r.overallScore))
      && !EndsWith(p.value.matchClass, ScoreColor(r.matchPercentage))
    ensures p.Some? ==> p.value.breakdown == Breakdown(r)
    ensures p.Some? ==> (p.value.skills.Some? <==> |r.matchingSkills| > 0 || |r.missingSkills| > 0)
    ensures p.Some? && p.value.skills.Some? ==>
      && (p.value.skills.value.matching.Some? <==> |r.matchingSkills| > 0)
      && (p.value.skills.value.missing.Some? <==> |r.missingSkills| > 0)
    ensures p.Some? && |r.matchingSkills| > 0 ==>
      p.value.skills == Some(SkillsBlock(Some(r.matchingSkills), NonEmpty(r.missingSkills)))
    ensures p.Some? && |r.missingSkills| > 0 ==>
      p.value.skills == Some(SkillsBlock(NonEmpty(r.matchingSkills), Some(r.missingSkills)))
    ensures p.Some? ==> (p.value.redFlags.Some? <==> |r.redFlags| > 0)
    ensures p.Some? && |r.redFlags| > 0 ==> p.value.redFlags == Some(r.redFlags)
  {
    if !HasJobMatching(r) then None
    else
      var skills :=
        if |r.matchingSkills| > 0 || |r.missingSkills| > 0 then
          Some(SkillsBlock(NonEmpty(r.matchingSkills), NonEmpty(r.missingSkills)))
        else None;
      HeadlineColourIgnored(OverallScore, r.overallScore, r.overallScore);
      HeadlineColourIgnored(MatchRate, r.matchPercentage, r.matchPercentage);
      Some(Panel(r.overallScore, HeadlineClassAsWritten(OverallScore, r.overallScore),
                 r.matchPercentage, HeadlineClassAsWritten(MatchRate, r.matchPercentage),
                 Breakdown(r), skills, NonEmpty(r.redFlags)))
  }

  /** The panel's content depends on the scores and the three skill/flag lists
      alone: the free-text fields of the analysis never change it. */
  lemma PanelIgnoresText(r: AnalysisResult, summary: string, name: string, experience: string,
                         education: string, salaryRange: string)
    ensures ScoringPanel(r.(summary := summary, name := name, experience := experience,
                            education := education, salaryRange := salaryRange))
         == ScoringPanel(r)
  {
  }

  /** Without a job description the backend reports zero for both headline
      numbers, and then no panel is drawn at all, whatever the sub-scores. */
  lemma NoPanelWithoutMatching(r: AnalysisResult)
    requires r.overallScore <= 0 && r.matchPercentage <= 0
    ensures ScoringPanel(r) == None
  {
  }

  // ---------------------------------------------------------------------------
  // Header and text fallbacks
  // ---------------------------------------------------------------------------

  /** The avatar: the first character of the name upper-cased, or `?` for an
      empty name. */
  function Initial(name: string): (r: string)
    ensures |r| == 1
    ensures name == "" ==> r == "?"
    ensures name != "" ==> r[0] == UpperChar(name[0])
  {
    if name == "" then "?" else [UpperChar(name[0])]
  }

  /** The initial never shows a lower-case ASCII letter. */
  lemma InitialNotLower(name: string)
    ensures !('a' <= Initial(name)[0] <= 'z')
  {
  }

  /** Lower-casing the name first does not change the avatar. */
  lemma InitialIgnoresCase(name: string)
    ensures Initial(Lower(name)) == Initial(name)
  {
    if name != "" {
      assert Lower(name)[0] == LowerChar(name[0]);
    }
  }

  /** JavaScript's `s || fallback` on a string: the empty string is falsy. */
  function OrElse(s: string, fallback: string): (r: string)
    ensures s != "" ==> r == s
    ensures s == "" ==> r == fallback
  {
    if s != "" then s else fallback
  }

  const UnknownName := "Không xác định"
  const NoInformation := "Không có thông tin"
  const NoSalaryInformation := "Chưa có thông tin"

  /** An optional line of the header: shown only when its text is non-empty,
      as `{data.email && ...}` does. */
  function Optional(s: string): (r: Option<string>)
    ensures r.Some? <==> s != ""
    ensures r.Some? ==> r.value == s
  {
    if s != "" then Some(s) else None
  }

  /** The header card and the text sections: the avatar, the name or its
      placeholder, email, phone and summary when present, and education,
      experience and salary each falling back to its placeholder. */
  datatype Header = Header(initial: string, name: string, email: Option<string>,
                           phone: Option<string>, summary: Option<string>,
                           education: string, experience: string, salary: string)

  function HeaderOf(r: AnalysisResult): (h: Header)
    ensures h.initial == Initial(r.name)
    ensures r.name != "" ==> h.name == r.name
    ensures r.name == "" ==> h.name == UnknownName
    ensures h.email.Some? <==> r.email != ""
    ensures h.email.Some? ==> h.email.value == r.email
    ensures h.phone.Some? <==> r.phone != ""
    ensures h.phone.Some? ==> h.phone.value == r.phone
    ensures h.summary.Some? <==> r.summary != ""
    ensures h.summary.Some? ==> h.summary.value == r.summary
    ensures r.education != "" ==> h.education == r.education
    ensures r.education == "" ==> h.education == NoInformation
    ensures r.experience != "" ==> h.experience == r.experience
    ensures r.experience == "" ==> h.experience == NoInformation
    ensures r.salaryRange != "" ==> h.salary == r.salaryRange
    ensures r.salaryRange == "" ==> h.salary == NoSalaryInformation
  {
    Header(Initial(r.name), OrElse(r.name, UnknownName), Optional(r.email), Optional(r.phone),
           Optional(r.summary), OrElse(r.education, NoInformation),
           OrElse(r.experience, NoInformation), OrElse(r.salaryRange, NoSalaryInformation))
  }

  /** The header never shows a blank name, education, experience or salary
      line, and it shows the candidate's own text for each exactly when that
      text is not one of the placeholders: a CV whose field is literally the
      placeholder cannot be told apart from one with the field missing. */
  lemma HeaderNeverBlank(r: AnalysisResult)
    ensures HeaderOf(r).name != "" && HeaderOf(r).education != ""
    ensures HeaderOf(r).experience != "" && HeaderOf(r).salary != ""
    ensures HeaderOf(r).name == UnknownName <==> r.name == "" || r.name == UnknownName
    ensures HeaderOf(r).salary == NoSalaryInformation <==>
              r.salaryRange == "" || r.salaryRange == NoSalaryInformation
  {
  }

  /** The header depends on the text fields alone: scores and lists never
      change it. */
  lemma HeaderIgnoresScores(r: AnalysisResult, s: AnalysisResult)
    requires r.name == s.name && r.email == s.email && r.phone == s.phone
    requires r.summary == s.summary && r.education == s.education
    requires r.experience == s.experience && r.salaryRange == s.salaryRange
    ensures HeaderOf(r) == HeaderOf(s)
  {
  }

  // ---------------------------------------------------------------------------
  // Lists and numbering
  // ---------------------------------------------------------------------------

  /** A list section: its entries, or the placeholder when there are none. */
  datatype Listing<T> = Entries(entries: seq<T>) | Placeholder(text: string)

  function ListOrPlaceholder<T>(xs: seq<T>): (l: Listing<T>)
    ensures l.Entries? <==> |xs| > 0
    ensures l.Entries? ==> l.entries == xs
    ensures l.Placeholder? ==> l.text == NoInformation
  {
    if |xs| > 0 then Entries(xs) else Placeholder(NoInformation)
  }

  /** Pairs each item with its position, counting from `first`, as `map` with
      its index does. */
  function Numbered<T>(items: seq<T>, first: nat): (r: seq<(nat, T)>)
    ensures |r| == |items|
    ensures forall i :: 0 <= i < |r| ==> r[i] == (first + i, items[i])
    decreases |items|
  {
    if items == [] then [] else [(first, items[0])] + Numbered(items[1..], first + 1)
  }

  /** The items of a numbered list, in the order they were given. */
  function Unnumbered<T>(r: seq<(nat, T)>): seq<T> {
    if r == [] then [] else [r[0].1] + Unnumbered(r[1..])
  }

  lemma {:induction false} UnnumberedNumbered<T>(items: seq<T>, first: nat)
    ensures Unnumbered(Numbered(items, first)) == items
    decreases |items|
  {
    if items != [] {
      var r := Numbered(items, first);
      assert r[1..] == Numbered(items[1..], first + 1);
      UnnumberedNumbered(items[1..], first + 1);
    }
  }

  /** Career steps are numbered 1..n: the numbers strictly increase, so no two
      steps share one. */
  function CareerSteps(steps: seq<string>): (r: seq<(nat, string)>)
    ensures |r| == |steps|
    ensures forall i :: 0 <= i < |r| ==> r[i].0 == i + 1
  {
    Numbered(steps, 1)
  }

  lemma CareerStepsInOrder(steps: seq<string>)
    ensures Unnumbered(CareerSteps(steps)) == steps
    ensures forall i, j :: 0 <= i < j < |steps| ==> CareerSteps(steps)[i].0 < CareerSteps(steps)[j].0
  {
    UnnumberedNumbered(steps, 1);
  }

  /** `Q{n}.` */
  function QuestionLabel(n: nat): string {
    "Q" + NatToString(n) + "."
  }

  lemma QuestionLabelInjective(m: nat, n: nat)
    requires QuestionLabel(m) == QuestionLabel(n)
    ensures m == n
  {
    var a := QuestionLabel(m);
    assert a[1..|a| - 1] == NatToString(m);
    assert a[1..|a| - 1] == NatToString(n);
    ParseNatToString(m);
    ParseNatToString(n);
  }

  /** Interview questions, each with its label Q1, Q2, ... in input order. */
  function LabelledQuestions(qs: seq<string>): (r: seq<(string, string)>)
    ensures |r| == |qs|
    ensures forall i :: 0 <= i < |r| ==> r[i].1 == qs[i]
  {
    var n := Numbered(qs, 1);
    seq(|n|, i requires 0 <= i < |n| => (QuestionLabel(n[i].0), n[i].1))
  }

  lemma LabelledQuestionsNumbering(qs: seq<string>)
    ensures forall i :: 0 <= i < |qs| ==> LabelledQuestions(qs)[i].0 == QuestionLabel(i + 1)
  {
  }

  /** No two questions carry the same label. */
  lemma QuestionLabelsDistinct(qs: seq<string>, i: nat, j: nat)
    requires i < j < |qs|
    ensures LabelledQuestions(qs)[i].0 != LabelledQuestions(qs)[j].0
  {
    LabelledQuestionsNumbering(qs);
    if QuestionLabel(i + 1) == QuestionLabel(j + 1) {
      QuestionLabelInjective(i + 1, j + 1);
    }
  }

  /** The list sections of the view, each falling back to the placeholder. */
  datatype Lists = Lists(skills: Listing<string>, strengths: Listing<string>,
                         recommendations: Listing<string>,
                         questions: Listing<(string, string)>,
                         careerPath: Listing<(nat, string)>)

  function ListsOf(r: AnalysisResult): (l: Lists)
    ensures l.skills == ListOrPlaceholder(r.skills)
    ensures l.strengths == ListOrPlaceholder(r.strengths)
    ensures l.recommendations == ListOrPlaceholder(r.recommendations)
    ensures l.questions == ListOrPlaceholder(LabelledQuestions(r.interviewQuestions))
    ensures l.careerPath == ListOrPlaceholder(CareerSteps(r.careerPath))
    ensures l.questions.Entries? <==> |r.interviewQuestions| > 0
    ensures l.careerPath.Entries? <==> |r.careerPath| > 0
  {
    Lists(ListOrPlaceholder(r.skills), ListOrPlaceholder(r.strengths),
          ListOrPlaceholder(r.recommendations),
          ListOrPlaceholder(LabelledQuestions(r.interviewQuestions)),
          ListOrPlaceholder(CareerSteps(r.careerPath)))
  }

  /** Every list section shows all of its entries, in input order: the
      questions labelled Q1, Q2, ..., and the career steps read back from their
      numbered form. */
  lemma ListsShowEveryEntry(r: AnalysisResult)
    ensures ListsOf(r).strengths.Entries? ==> ListsOf(r).strengths.entries == r.strengths
    ensures ListsOf(r).questions.Entries? ==>
      && |ListsOf(r).questions.entries| == |r.interviewQuestions|
      && forall i :: 0 <= i < |r.interviewQuestions| ==>
           ListsOf(r).questions.entries[i] == (QuestionLabel(i + 1), r.interviewQuestions[i])
    ensures ListsOf(r).careerPath.Entries? ==> Unnumbered(ListsOf(r).careerPath.entries) == r.careerPath
  {
    LabelledQuestionsNumbering(r.interviewQuestions);
    CareerStepsInOrder(r.careerPath);
  }
}
