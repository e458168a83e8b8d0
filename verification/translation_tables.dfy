/** The front end's string tables (frontend/lib/translations.ts:3-200) and
    `getTranslation` on them.

    The Vietnamese object (lines 4-101) and the Korean object (lines 102-199)
    list the same keys in the same order with the same nesting. The model
    therefore writes that key layout once, as `Table`, taking the text of each
    leaf from a function of the message it names; a language's table is `Table`
    applied to that language's texts. */
module TranslationTables {
  import opened Wrappers
  import opened Translations
  import Text

  datatype Language = Vi | Ko

  /** One leaf of the tables, named after its key path. */
  datatype Message =
    | Title
    | Subtitle
    | FeaturesFast
    | FeaturesAccurate
    | FeaturesFree
    | BatchAnalysis
    | BackToSingle
    | SelectModel
    | JobDescription
    | JobDescriptionSub
    | JobDescriptionEntered
    | JobDescriptionLabel
    | JobDescriptionPlaceholder
    | JobDescriptionInfo
    | DeleteJD
    | UploadCV
    | DropHere
    | SupportedFormats
    | Analyzing
    | PleaseWait
    | AiProcessing
    | AnalyzeNewCV
    | AnalyzeAll
    | ExportExcel
    | ScoringTitle
    | OverallScore
    | MatchWithJD
    | MatchRate
    | SkillsScore
    | ExperienceScore
    | EducationScore
    | SoftSkillsScore
    | MatchingSkills
    | MissingSkills
    | RedFlags
    | Skills
    | Experience
    | Education
    | Strengths
    | Recommendations
    | NoInfo
    | AiSuggestions
    | AiSuggestionsDesc
    | InterviewQuestions
    | SalaryRecommendation
    | CareerPath
    | BatchTitle
    | BatchSubtitle
    | SelectMultipleFiles
    | FilesSelected
    | Results
    | Rank
    | Name
    | Score
    | Match
    | SkillsLabel
    | RedFlagsLabel
    | Clean
    | Flags
    | SuccessMessage
    | SuccessSubMessage
    | ErrorMessage
    | SelectAtLeastOne
    | BatchError
    | ExportError

  // ---------------------------------------------------------------------------
  // The key layout, in the groups the source's comments mark
  // ---------------------------------------------------------------------------

  /** Both tables' layout, with `text` giving the string at each leaf. */
  function Table(text: Message -> string): Node<string> {
    Section(
      MainPage(text,
      ResultView(text,
      BatchPage(text,
      End))))
  }

  /** The keys of the single-analysis page, followed by `rest`. */
  function MainPage(text: Message -> string, rest: Entries<string>): Entries<string> {
    HeaderGroup(text,
    FeaturesGroup(text,
    NavigationGroup(text,
    ModelSelectionGroup(text,
    JobDescriptionGroup(text,
    UploadGroup(text,
    ActionsGroup(text,
    rest)))))))
  }

  /** The keys of the result view, followed by `rest`. */
  function ResultView(text: Message -> string, rest: Entries<string>): Entries<string> {
    ScoringGroup(text,
    ScoreBreakdownGroup(text,
    SkillsMatchingGroup(text,
    ProfileSectionsGroup(text,
    AiSuggestionsGroup(text,
    rest)))))
  }

  /** The keys of the batch page and its messages, followed by `rest`. */
  function BatchPage(text: Message -> string, rest: Entries<string>): Entries<string> {
    BatchAnalysisGroup(text,
    TableHeadersGroup(text,
    MessagesGroup(text,
    rest)))
  }

  /** Header (lines 5-7 and 103-105), followed by `rest`. */
  function HeaderGroup(text: Message -> string, rest: Entries<string>): Entries<string> {
    Entry("title", Leaf(text(Title)),
    Entry("subtitle", Leaf(text(Subtitle)),
    rest))
  }

  /** Features (lines 9-14 and 107-112), followed by `rest`. */
  function FeaturesGroup(text: Message -> string, rest: Entries<string>): Entries<string> {
    Entry("features", Section(
      Entry("fast", Leaf(text(FeaturesFast)),
      Entry("accurate", Leaf(text(FeaturesAccurate)),
      Entry("free", Leaf(text(FeaturesFree)),
      End)))),
    rest)
  }

  /** Navigation (lines 16-18 and 114-116), followed by `rest`. */
  function NavigationGroup(text: Message -> string, rest: Entries<string>): Entries<string> {
    Entry("batchAnalysis", Leaf(text(BatchAnalysis)),
    Entry("backToSingle", Leaf(text(BackToSingle)),
    rest))
  }

  /** Model Selection (lines 20-21 and 118-119), followed by `rest`. */
  function ModelSelectionGroup(text: Message -> string, rest: Entries<string>): Entries<string> {
    Entry("selectModel", Leaf(text(SelectModel)),
    rest)
  }

  /** Job Description (lines 23-30 and 121-128), followed by `rest`. */
  function JobDescriptionGroup(text: Message -> string, rest: Entries<string>): Entries<string> {
    Entry("jobDescription", Leaf(text(JobDescription)),
    Entry("jobDescriptionSub", Leaf(text(JobDescriptionSub)),
    Entry("jobDescriptionEntered", Leaf(text(JobDescriptionEntered)),
    Entry("jobDescriptionLabel", Leaf(text(JobDescriptionLabel)),
    Entry("jobDescriptionPlaceholder", Leaf(text(JobDescriptionPlaceholder)),
    Entry("jobDescriptionInfo", Leaf(text(JobDescriptionInfo)),
    Entry("deleteJD", Leaf(text(DeleteJD)),
    rest)))))))
  }

  /** Upload (lines 32-38 and 130-136), followed by `rest`. */
  function UploadGroup(text: Message -> string, rest: Entries<string>): Entries<string> {
    Entry("uploadCV", Leaf(text(UploadCV)),
    Entry("dropHere", Leaf(text(DropHere)),
    Entry("supportedFormats", Leaf(text(SupportedFormats)),
    Entry("analyzing", Leaf(text(Analyzing)),
    Entry("pleaseWait", Leaf(text(PleaseWait)),
    Entry("aiProcessing", Leaf(text(AiProcessing)),
    rest))))))
  }

  /** Actions (lines 40-43 and 138-141), followed by `rest`. */
  function ActionsGroup(text: Message -> string, rest: Entries<string>): Entries<string> {
    Entry("analyzeNewCV", Leaf(text(AnalyzeNewCV)),
    Entry("analyzeAll", Leaf(text(AnalyzeAll)),
    Entry("exportExcel", Leaf(text(ExportExcel)),
    rest)))
  }

  /** Scoring (lines 45-49 and 143-147), followed by `rest`. */
  function ScoringGroup(text: Message -> string, rest: Entries<string>): Entries<string> {
    Entry("scoringTitle", Leaf(text(ScoringTitle)),
    Entry("overallScore", Leaf(text(OverallScore)),
    Entry("matchWithJD", Leaf(text(MatchWithJD)),
    Entry("matchRate", Leaf(text(MatchRate)),
    rest))))
  }

  /** Score Breakdown (lines 51-55 and 149-153), followed by `rest`. */
  function ScoreBreakdownGroup(text: Message -> string, rest: Entries<string>): Entries<string> {
    Entry("skillsScore", Leaf(text(SkillsScore)),
    Entry("experienceScore", Leaf(text(ExperienceScore)),
    Entry("educationScore", Leaf(text(EducationScore)),
    Entry("softSkillsScore", Leaf(text(SoftSkillsScore)),
    rest))))
  }

  /** Skills Matching (lines 57-60 and 155-158), followed by `rest`. */
  function SkillsMatchingGroup(text: Message -> string, rest: Entries<string>): Entries<string> {
    Entry("matchingSkills", Leaf(text(MatchingSkills)),
    Entry("missingSkills", Leaf(text(MissingSkills)),
    Entry("redFlags", Leaf(text(RedFlags)),
    rest)))
  }

  /** Profile Sections (lines 62-68 and 160-166), followed by `rest`. */
  function ProfileSectionsGroup(text: Message -> string, rest: Entries<string>): Entries<string> {
    Entry("skills", Leaf(text(Skills)),
    Entry("experience", Leaf(text(Experience)),
    Entry("education", Leaf(text(Education)),
    Entry("strengths", Leaf(text(Strengths)),
    Entry("recommendations", Leaf(text(Recommendations)),
    Entry("noInfo", Leaf(text(NoInfo)),
    rest))))))
  }

  /** AI Suggestions (lines 70-75 and 168-173), followed by `rest`. */
  function AiSuggestionsGroup(text: Message -> string, rest: Entries<string>): Entries<string> {
    Entry("aiSuggestions", Leaf(text(AiSuggestions)),
    Entry("aiSuggestionsDesc", Leaf(text(AiSuggestionsDesc)),
    Entry("interviewQuestions", Leaf(text(InterviewQuestions)),
    Entry("salaryRecommendation", Leaf(text(SalaryRecommendation)),
    Entry("careerPath", Leaf(text(CareerPath)),
    rest)))))
  }

  /** Batch Analysis (lines 77-82 and 175-180), followed by `rest`. */
  function BatchAnalysisGroup(text: Message -> string, rest: Entries<string>): Entries<string> {
    Entry("batchTitle", Leaf(text(BatchTitle)),
    Entry("batchSubtitle", Leaf(text(BatchSubtitle)),
    Entry("selectMultipleFiles", Leaf(text(SelectMultipleFiles)),
    Entry("filesSelected", Leaf(text(FilesSelected)),
    Entry("results", Leaf(text(Results)),
    rest)))))
  }

  /** Table Headers (lines 84-92 and 182-190), followed by `rest`. */
  function TableHeadersGroup(text: Message -> string, rest: Entries<string>): Entries<string> {
    Entry("rank", Leaf(text(Rank)),
    Entry("name", Leaf(text(Name)),
    Entry("score", Leaf(text(Score)),
    Entry("match", Leaf(text(Match)),
    Entry("skillsLabel", Leaf(text(SkillsLabel)),
    Entry("redFlagsLabel", Leaf(text(RedFlagsLabel)),
    Entry("clean", Leaf(text(Clean)),
    Entry("flags", Leaf(text(Flags)),
    rest))))))))
  }

  /** Messages (lines 94-100 and 192-198), followed by `rest`. */
  function MessagesGroup(text: Message -> string, rest: Entries<string>): Entries<string> {
    Entry("successMessage", Leaf(text(SuccessMessage)),
    Entry("successSubMessage", Leaf(text(SuccessSubMessage)),
    Entry("errorMessage", Leaf(text(ErrorMessage)),
    Entry("selectAtLeastOne", Leaf(text(SelectAtLeastOne)),
    Entry("batchError", Leaf(text(BatchError)),
    Entry("exportError", Leaf(text(ExportError)),
    rest))))))
  }

  // ---------------------------------------------------------------------------
  // Texts
  // ---------------------------------------------------------------------------

  /** The Vietnamese texts (lines 4-101). Long texts are written in pieces. */
  function ViText(m: Message): string {
    match m
    case Title => "CV Analyzer AI"
    case Subtitle => "🚀 Upload CV của bạn và "
      + "nhận phân tích chi tiết "
      + "từ AI trong vài giây"
    case FeaturesFast => "⚡ Nhanh chóng"
    case FeaturesAccurate => "🎯 Chính xác"
    case FeaturesFree => "🆓 Miễn phí"
    case BatchAnalysis => "📊 Batch Analysis - Phân "
      + "tích nhiều CV"
    case BackToSingle => "← Quay lại Single "
      + "Analysis"
    case SelectModel => "🤖 Chọn AI Model"
    case JobDescription => "Job Description (Tùy "
      + "chọn)"
    case JobDescriptionSub => "Click để nhập yêu cầu "
      + "công việc"
    case JobDescriptionEntered => "✓ Đã nhập JD - Click để "
      + "chỉnh sửa"
    case JobDescriptionLabel => "📝 Nhập Job Description "
      + "hoặc Yêu cầu công việc"
    case JobDescriptionPlaceholder => "Ví dụ:\n\nVị trí: Senior "
      + "Backend Developer\n\nYêu "
      + "cầu:\n- 3+ năm kinh "
      + "nghiệm Python/Django\n- "
      + "Thành thạo PostgreSQL, "
      + "Redis\n- Kinh nghiệm với "
      + "AWS/Docker\n- Kỹ năng "
      + "làm việc nhóm tốt\n- "
      + "Tiếng Anh giao tiếp\n\nƯu "
      + "tiên:\n- Có kinh nghiệm "
      + "lead team\n- Biết về "
      + "microservices"
    case JobDescriptionInfo => "AI sẽ so sánh CV với "
      + "yêu cầu này và đưa ra "
      + "điểm số + phân tích chi "
      + "tiết"
    case DeleteJD => "🗑️ Xóa JD"
    case UploadCV => "📤 Kéo thả CV hoặc click "
      + "để chọn"
    case DropHere => "🎯 Thả file vào đây"
    case SupportedFormats => "Hỗ trợ: PDF, DOCX, TXT "
      + "(Tối đa 10MB)"
    case Analyzing => "Đang phân tích CV..."
    case PleaseWait => "Vui lòng đợi trong giây "
      + "lát"
    case AiProcessing => "AI đang xử lý, vui lòng "
      + "đợi 🤖"
    case AnalyzeNewCV => "Phân tích CV mới"
    case AnalyzeAll => "🚀 Phân tích tất cả CV"
    case ExportExcel => "📥 Export Excel"
    case ScoringTitle => "📊 Điểm Đánh Giá & Job "
      + "Matching"
    case OverallScore => "Điểm Tổng Thể"
    case MatchWithJD => "Phù Hợp với JD"
    case MatchRate => "Match Rate"
    case SkillsScore => "Kỹ năng (30%)"
    case ExperienceScore => "Kinh nghiệm (30%)"
    case EducationScore => "Học vấn (20%)"
    case SoftSkillsScore => "Kỹ năng mềm (20%)"
    case MatchingSkills => "Skills Phù Hợp"
    case MissingSkills => "Skills Thiếu"
    case RedFlags => "Red Flags"
    case Skills => "Kỹ năng"
    case Experience => "Kinh nghiệm"
    case Education => "Học vấn"
    case Strengths => "Điểm mạnh"
    case Recommendations => "Gợi ý cải thiện"
    case NoInfo => "Không có thông tin"
    case AiSuggestions => "🤖 AI Suggestions"
    case AiSuggestionsDesc => "Phân tích chuyên sâu từ "
      + "AI"
    case InterviewQuestions => "Câu hỏi phỏng vấn đề "
      + "xuất"
    case SalaryRecommendation => "Mức lương đề xuất"
    case CareerPath => "Lộ trình phát triển"
    case BatchTitle => "📊 Batch CV Analysis"
    case BatchSubtitle => "Upload nhiều CV cùng "
      + "lúc, so sánh và export "
      + "Excel"
    case SelectMultipleFiles => "📁 Chọn nhiều CV (Tối đa "
      + "10 files)"
    case FilesSelected => "Đã chọn {count} file(s):"
    case Results => "Kết quả ({count} CVs)"
    case Rank => "#"
    case Name => "Tên"
    case Score => "Điểm"
    case Match => "Match %"
    case SkillsLabel => "Skills"
    case RedFlagsLabel => "Red Flags"
    case Clean => "✓ Clean"
    case Flags => "⚠️ {count} flag(s)"
    case SuccessMessage => "Phân tích thành công!"
    case SuccessSubMessage => "Bò và Mèo đã hoàn thành "
      + "công việc! 🎉"
    case ErrorMessage => "Có lỗi xảy ra khi phân "
      + "tích CV. Vui lòng thử "
      + "lại!"
    case SelectAtLeastOne => "Vui lòng chọn ít nhất 1 "
      + "CV"
    case BatchError => "Có lỗi xảy ra khi phân "
      + "tích!"
    case ExportError => "Có lỗi khi export Excel!"
  }

  /** The Korean texts (lines 102-199). */
  function KoText(m: Message): string {
    match m
    case Title => "CV Analyzer AI"
    case Subtitle => "🚀 이력서를 업로드하고 몇 초 안에 AI의 "
      + "상세한 분석을 받으세요"
    case FeaturesFast => "⚡ 빠름"
    case FeaturesAccurate => "🎯 정확함"
    case FeaturesFree => "🆓 무료"
    case BatchAnalysis => "📊 일괄 분석 - 여러 이력서 분석"
    case BackToSingle => "← 단일 분석으로 돌아가기"
    case SelectModel => "🤖 AI 모델 선택"
    case JobDescription => "직무 설명 (선택사항)"
    case JobDescriptionSub => "클릭하여 직무 요구사항 입력"
    case JobDescriptionEntered => "✓ JD 입력됨 - 클릭하여 수정"
    case JobDescriptionLabel => "📝 직무 설명 또는 요구사항 입력"
    case JobDescriptionPlaceholder => "예시:\n\n직위: 시니어 백엔드 개발자\n\n"
      + "요구사항:\n- Python/Django "
      + "3년 이상 경험\n- PostgreSQL, "
      + "Redis 능숙\n- AWS/Docker "
      + "경험\n- 팀워크 능력\n- 영어 의사소통\n\n"
      + "우대사항:\n- 팀 리드 경험\n- "
      + "마이크로서비스 지식"
    case JobDescriptionInfo => "AI가 이력서를 이 요구사항과 비교하여 "
      + "점수 + 상세 분석을 제공합니다"
    case DeleteJD => "🗑️ JD 삭제"
    case UploadCV => "📤 이력서를 드래그하거나 클릭하여 선택"
    case DropHere => "🎯 여기에 파일 놓기"
    case SupportedFormats => "지원: PDF, DOCX, TXT (최대 "
      + "10MB)"
    case Analyzing => "이력서 분석 중..."
    case PleaseWait => "잠시만 기다려주세요"
    case AiProcessing => "AI가 처리 중입니다, 잠시만 기다려주세요 "
      + "🤖"
    case AnalyzeNewCV => "새 이력서 분석"
    case AnalyzeAll => "🚀 모든 이력서 분석"
    case ExportExcel => "📥 Excel 내보내기"
    case ScoringTitle => "📊 평가 점수 & 직무 매칭"
    case OverallScore => "종합 점수"
    case MatchWithJD => "JD 적합도"
    case MatchRate => "매칭률"
    case SkillsScore => "기술 (30%)"
    case ExperienceScore => "경력 (30%)"
    case EducationScore => "학력 (20%)"
    case SoftSkillsScore => "소프트 스킬 (20%)"
    case MatchingSkills => "일치하는 기술"
    case MissingSkills => "부족한 기술"
    case RedFlags => "주의사항"
    case Skills => "기술"
    case Experience => "경력"
    case Education => "학력"
    case Strengths => "강점"
    case Recommendations => "개선 제안"
    case NoInfo => "정보 없음"
    case AiSuggestions => "🤖 AI 제안"
    case AiSuggestionsDesc => "AI의 심층 분석"
    case InterviewQuestions => "추천 면접 질문"
    case SalaryRecommendation => "추천 급여"
    case CareerPath => "경력 개발 경로"
    case BatchTitle => "📊 일괄 이력서 분석"
    case BatchSubtitle => "여러 이력서를 동시에 업로드하고 비교 및 "
      + "Excel로 내보내기"
    case SelectMultipleFiles => "📁 여러 이력서 선택 (최대 10개)"
    case FilesSelected => "{count}개 파일 선택됨:"
    case Results => "결과 ({count}개 이력서)"
    case Rank => "#"
    case Name => "이름"
    case Score => "점수"
    case Match => "매칭 %"
    case SkillsLabel => "기술"
    case RedFlagsLabel => "주의사항"
    case Clean => "✓ 문제없음"
    case Flags => "⚠️ {count}개 주의사항"
    case SuccessMessage => "분석 완료!"
    case SuccessSubMessage => "소와 고양이가 작업을 완료했습니다! 🎉"
    case ErrorMessage => "이력서 분석 중 오류가 발생했습니다. 다시 "
      + "시도해주세요!"
    case SelectAtLeastOne => "최소 1개의 이력서를 선택해주세요"
    case BatchError => "분석 중 오류가 발생했습니다!"
    case ExportError => "Excel 내보내기 중 오류가 발생했습니다!"
  }
  // ---------------------------------------------------------------------------
  // The tables and getTranslation (frontend/lib/translations.ts:202-215)
  // ---------------------------------------------------------------------------

  /** A language's text for each message. */
  function TextFn(lang: Language): Message -> string {
    match lang
    case Vi => ViText
    case Ko => KoText
  }

  /** `translations[lang]`. */
  function TableOf(lang: Language): Node<string> {
    Table(TextFn(lang))
  }

  /** `getTranslation(lang, key, params)`. */
  function GetTranslation(lang: Language, key: string, params: Option<map<string, Param>>): Node<string> {
    Translate(TableOf(lang), key, params)
  }

  // ---------------------------------------------------------------------------
  // The two languages define the same keys
  // ---------------------------------------------------------------------------

  lemma HeaderGroupShape(f: Message -> string, g: Message -> string, r1: Entries<string>, r2: Entries<string>)
    requires EntriesAgree(r1, r2)
    ensures EntriesAgree(HeaderGroup(f, r1), HeaderGroup(g, r2))
  {
    assert EntriesAgree(HeaderGroup(f, r1).rest, HeaderGroup(g, r2).rest);
  }

  lemma FeaturesGroupShape(f: Message -> string, g: Message -> string, r1: Entries<string>, r2: Entries<string>)
    requires EntriesAgree(r1, r2)
    ensures EntriesAgree(FeaturesGroup(f, r1), FeaturesGroup(g, r2))
  {
    assert EntriesAgree(FeaturesGroup(f, r1).value.entries.rest.rest.rest, FeaturesGroup(g, r2).value.entries.rest.rest.rest);
    assert EntriesAgree(FeaturesGroup(f, r1).value.entries.rest.rest, FeaturesGroup(g, r2).value.entries.rest.rest);
    assert EntriesAgree(FeaturesGroup(f, r1).value.entries.rest, FeaturesGroup(g, r2).value.entries.rest);
    assert EntriesAgree(FeaturesGroup(f, r1).value.entries, FeaturesGroup(g, r2).value.entries);
  }

  lemma NavigationGroupShape(f: Message -> string, g: Message -> string, r1: Entries<string>, r2: Entries<string>)
    requires EntriesAgree(r1, r2)
    ensures EntriesAgree(NavigationGroup(f, r1), NavigationGroup(g, r2))
  {
    assert EntriesAgree(NavigationGroup(f, r1).rest, NavigationGroup(g, r2).rest);
  }

  lemma ModelSelectionGroupShape(f: Message -> string, g: Message -> string, r1: Entries<string>, r2: Entries<string>)
    requires EntriesAgree(r1, r2)
    ensures EntriesAgree(ModelSelectionGroup(f, r1), ModelSelectionGroup(g, r2))
  {

  }

  lemma JobDescriptionGroupShape(f: Message -> string, g: Message -> string, r1: Entries<string>, r2: Entries<string>)
    requires EntriesAgree(r1, r2)
    ensures EntriesAgree(JobDescriptionGroup(f, r1), JobDescriptionGroup(g, r2))
  {
    assert EntriesAgree(JobDescriptionGroup(f, r1).rest.rest.rest.rest.rest.rest, JobDescriptionGroup(g, r2).rest.rest.rest.rest.rest.rest);
    assert EntriesAgree(JobDescriptionGroup(f, r1).rest.rest.rest.rest.rest, JobDescriptionGroup(g, r2).rest.rest.rest.rest.rest);
    assert EntriesAgree(JobDescriptionGroup(f, r1).rest.rest.rest.rest, JobDescriptionGroup(g, r2).rest.rest.rest.rest);
    assert EntriesAgree(JobDescriptionGroup(f, r1).rest.rest.rest, JobDescriptionGroup(g, r2).rest.rest.rest);
    assert EntriesAgree(JobDescriptionGroup(f, r1).rest.rest, JobDescriptionGroup(g, r2).rest.rest);
    assert EntriesAgree(JobDescriptionGroup(f, r1).rest, JobDescriptionGroup(g, r2).rest);
  }

  lemma UploadGroupShape(f: Message -> string, g: Message -> string, r1: Entries<string>, r2: Entries<string>)
    requires EntriesAgree(r1, r2)
    ensures EntriesAgree(UploadGroup(f, r1), UploadGroup(g, r2))
  {
    assert EntriesAgree(UploadGroup(f, r1).rest.rest.rest.rest.rest, UploadGroup(g, r2).rest.rest.rest.rest.rest);
    assert EntriesAgree(UploadGroup(f, r1).rest.rest.rest.rest, UploadGroup(g, r2).rest.rest.rest.rest);
    assert EntriesAgree(UploadGroup(f, r1).rest.rest.rest, UploadGroup(g, r2).rest.rest.rest);
    assert EntriesAgree(UploadGroup(f, r1).rest.rest, UploadGroup(g, r2).rest.rest);
    assert EntriesAgree(UploadGroup(f, r1).rest, UploadGroup(g, r2).rest);
  }

  lemma ActionsGroupShape(f: Message -> string, g: Message -> string, r1: Entries<string>, r2: Entries<string>)
    requires EntriesAgree(r1, r2)
    ensures EntriesAgree(ActionsGroup(f, r1), ActionsGroup(g, r2))
  {
    assert EntriesAgree(ActionsGroup(f, r1).rest.rest, ActionsGroup(g, r2).rest.rest);
    assert EntriesAgree(ActionsGroup(f, r1).rest, ActionsGroup(g, r2).rest);
  }

  lemma ScoringGroupShape(f: Message -> string, g: Message -> string, r1: Entries<string>, r2: Entries<string>)
    requires EntriesAgree(r1, r2)
    ensures EntriesAgree(ScoringGroup(f, r1), ScoringGroup(g, r2))
  {
    assert EntriesAgree(ScoringGroup(f, r1).rest.rest.rest, ScoringGroup(g, r2).rest.rest.rest);
    assert EntriesAgree(ScoringGroup(f, r1).rest.rest, ScoringGroup(g, r2).rest.rest);
    assert EntriesAgree(ScoringGroup(f, r1).rest, ScoringGroup(g, r2).rest);
  }

  lemma ScoreBreakdownGroupShape(f: Message -> string, g: Message -> string, r1: Entries<string>, r2: Entries<string>)
    requires EntriesAgree(r1, r2)
    ensures EntriesAgree(ScoreBreakdownGroup(f, r1), ScoreBreakdownGroup(g, r2))
  {
    assert EntriesAgree(ScoreBreakdownGroup(f, r1).rest.rest.rest, ScoreBreakdownGroup(g, r2).rest.rest.rest);
    assert EntriesAgree(ScoreBreakdownGroup(f, r1).rest.rest, ScoreBreakdownGroup(g, r2).rest.rest);
    assert EntriesAgree(ScoreBreakdownGroup(f, r1).rest, ScoreBreakdownGroup(g, r2).rest);
  }

  lemma SkillsMatchingGroupShape(f: Message -> string, g: Message -> string, r1: Entries<string>, r2: Entries<string>)
    requires EntriesAgree(r1, r2)
    ensures EntriesAgree(SkillsMatchingGroup(f, r1), SkillsMatchingGroup(g, r2))
  {
    assert EntriesAgree(SkillsMatchingGroup(f, r1).rest.rest, SkillsMatchingGroup(g, r2).rest.rest);
    assert EntriesAgree(SkillsMatchingGroup(f, r1).rest, SkillsMatchingGroup(g, r2).rest);
  }

  lemma ProfileSectionsGroupShape(f: Message -> string, g: Message -> string, r1: Entries<string>, r2: Entries<string>)
    requires EntriesAgree(r1, r2)
    ensures EntriesAgree(ProfileSectionsGroup(f, r1), ProfileSectionsGroup(g, r2))
  {
    assert EntriesAgree(ProfileSectionsGroup(f, r1).rest.rest.rest.rest.rest, ProfileSectionsGroup(g, r2).rest.rest.rest.rest.rest);
    assert EntriesAgree(ProfileSectionsGroup(f, r1).rest.rest.rest.rest, ProfileSectionsGroup(g, r2).rest.rest.rest.rest);
    assert EntriesAgree(ProfileSectionsGroup(f, r1).rest.rest.rest, ProfileSectionsGroup(g, r2).rest.rest.rest);
    assert EntriesAgree(ProfileSectionsGroup(f, r1).rest.rest, ProfileSectionsGroup(g, r2).rest.rest);
    assert EntriesAgree(ProfileSectionsGroup(f, r1).rest, ProfileSectionsGroup(g, r2).rest);
  }

  lemma AiSuggestionsGroupShape(f: Message -> string, g: Message -> string, r1: Entries<string>, r2: Entries<string>)
    requires EntriesAgree(r1, r2)
    ensures EntriesAgree(AiSuggestionsGroup(f, r1), AiSuggestionsGroup(g, r2))
  {
    assert EntriesAgree(AiSuggestionsGroup(f, r1).rest.rest.rest.rest, AiSuggestionsGroup(g, r2).rest.rest.rest.rest);
    assert EntriesAgree(AiSuggestionsGroup(f, r1).rest.rest.rest, AiSuggestionsGroup(g, r2).rest.rest.rest);
    assert EntriesAgree(AiSuggestionsGroup(f, r1).rest.rest, AiSuggestionsGroup(g, r2).rest.rest);
    assert EntriesAgree(AiSuggestionsGroup(f, r1).rest, AiSuggestionsGroup(g, r2).rest);
  }

  lemma BatchAnalysisGroupShape(f: Message -> string, g: Message -> string, r1: Entries<string>, r2: Entries<string>)
    requires EntriesAgree(r1, r2)
    ensures EntriesAgree(BatchAnalysisGroup(f, r1), BatchAnalysisGroup(g, r2))
  {
    assert EntriesAgree(BatchAnalysisGroup(f, r1).rest.rest.rest.rest, BatchAnalysisGroup(g, r2).rest.rest.rest.rest);
    assert EntriesAgree(BatchAnalysisGroup(f, r1).rest.rest.rest, BatchAnalysisGroup(g, r2).rest.rest.rest);
    assert EntriesAgree(BatchAnalysisGroup(f, r1).rest.rest, BatchAnalysisGroup(g, r2).rest.rest);
    assert EntriesAgree(BatchAnalysisGroup(f, r1).rest, BatchAnalysisGroup(g, r2).rest);
  }

  lemma TableHeadersGroupShape(f: Message -> string, g: Message -> string, r1: Entries<string>, r2: Entries<string>)
    requires EntriesAgree(r1, r2)
    ensures EntriesAgree(TableHeadersGroup(f, r1), TableHeadersGroup(g, r2))
  {
    assert EntriesAgree(TableHeadersGroup(f, r1).rest.rest.rest.rest.rest.rest.rest, TableHeadersGroup(g, r2).rest.rest.rest.rest.rest.rest.rest);
    assert EntriesAgree(TableHeadersGroup(f, r1).rest.rest.rest.rest.rest.rest, TableHeadersGroup(g, r2).rest.rest.rest.rest.rest.rest);
    assert EntriesAgree(TableHeadersGroup(f, r1).rest.rest.rest.rest.rest, TableHeadersGroup(g, r2).rest.rest.rest.rest.rest);
    assert EntriesAgree(TableHeadersGroup(f, r1).rest.rest.rest.rest, TableHeadersGroup(g, r2).rest.rest.rest.rest);
    assert EntriesAgree(TableHeadersGroup(f, r1).rest.rest.rest, TableHeadersGroup(g, r2).rest.rest.rest);
    assert EntriesAgree(TableHeadersGroup(f, r1).rest.rest, TableHeadersGroup(g, r2).rest.rest);
    assert EntriesAgree(TableHeadersGroup(f, r1).rest, TableHeadersGroup(g, r2).rest);
  }

  lemma MessagesGroupShape(f: Message -> string, g: Message -> string, r1: Entries<string>, r2: Entries<string>)
    requires EntriesAgree(r1, r2)
    ensures EntriesAgree(MessagesGroup(f, r1), MessagesGroup(g, r2))
  {
    assert EntriesAgree(MessagesGroup(f, r1).rest.rest.rest.rest.rest, MessagesGroup(g, r2).rest.rest.rest.rest.rest);
    assert EntriesAgree(MessagesGroup(f, r1).rest.rest.rest.rest, MessagesGroup(g, r2).rest.rest.rest.rest);
    assert EntriesAgree(MessagesGroup(f, r1).rest.rest.rest, MessagesGroup(g, r2).rest.rest.rest);
    assert EntriesAgree(MessagesGroup(f, r1).rest.rest, MessagesGroup(g, r2).rest.rest);
    assert EntriesAgree(MessagesGroup(f, r1).rest, MessagesGroup(g, r2).rest);
  }

  lemma MainPageShape(f: Message -> string, g: Message -> string, r1: Entries<string>, r2: Entries<string>)
    requires EntriesAgree(r1, r2)
    ensures EntriesAgree(MainPage(f, r1), MainPage(g, r2))
  {
    var a7, b7 := r1, r2;
    ActionsGroupShape(f, g, a7, b7);
    var a6, b6 := ActionsGroup(f, a7), ActionsGroup(g, b7);
    UploadGroupShape(f, g, a6, b6);
    var a5, b5 := UploadGroup(f, a6), UploadGroup(g, b6);
    JobDescriptionGroupShape(f, g, a5, b5);
    var a4, b4 := JobDescriptionGroup(f, a5), JobDescriptionGroup(g, b5);
    ModelSelectionGroupShape(f, g, a4, b4);
    var a3, b3 := ModelSelectionGroup(f, a4), ModelSelectionGroup(g, b4);
    NavigationGroupShape(f, g, a3, b3);
    var a2, b2 := NavigationGroup(f, a3), NavigationGroup(g, b3);
    FeaturesGroupShape(f, g, a2, b2);
    var a1, b1 := FeaturesGroup(f, a2), FeaturesGroup(g, b2);
    HeaderGroupShape(f, g, a1, b1);
    var a0, b0 := HeaderGroup(f, a1), HeaderGroup(g, b1);
    assert MainPage(f, r1) == a0 && MainPage(g, r2) == b0;
  }

  lemma ResultViewShape(f: Message -> string, g: Message -> string, r1: Entries<string>, r2: Entries<string>)
    requires EntriesAgree(r1, r2)
    ensures EntriesAgree(ResultView(f, r1), ResultView(g, r2))
  {
    var a12, b12 := r1, r2;
    AiSuggestionsGroupShape(f, g, a12, b12);
    var a11, b11 := AiSuggestionsGroup(f, a12), AiSuggestionsGroup(g, b12);
    ProfileSectionsGroupShape(f, g, a11, b11);
    var a10, b10 := ProfileSectionsGroup(f, a11), ProfileSectionsGroup(g, b11);
    SkillsMatchingGroupShape(f, g, a10, b10);
    var a9, b9 := SkillsMatchingGroup(f, a10), SkillsMatchingGroup(g, b10);
    ScoreBreakdownGroupShape(f, g, a9, b9);
    var a8, b8 := ScoreBreakdownGroup(f, a9), ScoreBreakdownGroup(g, b9);
    ScoringGroupShape(f, g, a8, b8);
    var a7, b7 := ScoringGroup(f, a8), ScoringGroup(g, b8);
    assert ResultView(f, r1) == a7 && ResultView(g, r2) == b7;
  }

  lemma BatchPageShape(f: Message -> string, g: Message -> string, r1: Entries<string>, r2: Entries<string>)
    requires EntriesAgree(r1, r2)
    ensures EntriesAgree(BatchPage(f, r1), BatchPage(g, r2))
  {
    var a15, b15 := r1, r2;
    MessagesGroupShape(f, g, a15, b15);
    var a14, b14 := MessagesGroup(f, a15), MessagesGroup(g, b15);
    TableHeadersGroupShape(f, g, a14, b14);
    var a13, b13 := TableHeadersGroup(f, a14), TableHeadersGroup(g, b14);
    BatchAnalysisGroupShape(f, g, a13, b13);
    var a12, b12 := BatchAnalysisGroup(f, a13), BatchAnalysisGroup(g, b13);
    assert BatchPage(f, r1) == a12 && BatchPage(g, r2) == b12;
  }

  /** Whatever the texts, two instances of the layout have the same shape. */
  lemma TableShape(f: Message -> string, g: Message -> string)
    ensures SameShape(Table(f), Table(g))
  {
    BatchPageShape(f, g, End, End);
    ResultViewShape(f, g, BatchPage(f, End), BatchPage(g, End));
    MainPageShape(f, g, ResultView(f, BatchPage(f, End)), ResultView(g, BatchPage(g, End)));
  }

  /** Every key resolves in one language exactly when it resolves in the other,
      and to a string in one exactly when to a string in the other. */
  lemma SameKeysInBothLanguages(a: Language, b: Language, key: string)
    ensures Resolve(TableOf(a), key).Some? <==> Resolve(TableOf(b), key).Some?
    ensures Resolve(TableOf(a), key).Some? ==>
              (Resolve(TableOf(a), key).value.Leaf? <==> Resolve(TableOf(b), key).value.Leaf?)
  {
    TableShape(TextFn(a), TextFn(b));
    SameShapeResolve(TableOf(a), TableOf(b), key);
  }

  // ---------------------------------------------------------------------------
  // Looking past a group
  // ---------------------------------------------------------------------------

  lemma HeaderGroupSkip(text: Message -> string, rest: Entries<string>, k: string)
    requires k !in ["title", "subtitle"]
    ensures Lookup(HeaderGroup(text, rest), k) == Lookup(rest, k)
  {
    assert Lookup(HeaderGroup(text, rest), k) == Lookup(HeaderGroup(text, rest).rest.rest, k);
  }

  lemma FeaturesGroupSkip(text: Message -> string, rest: Entries<string>, k: string)
    requires k !in ["features"]
    ensures Lookup(FeaturesGroup(text, rest), k) == Lookup(rest, k)
  {
    assert Lookup(FeaturesGroup(text, rest), k) == Lookup(FeaturesGroup(text, rest).rest, k);
  }

  lemma NavigationGroupSkip(text: Message -> string, rest: Entries<string>, k: string)
    requires k !in ["batchAnalysis", "backToSingle"]
    ensures Lookup(NavigationGroup(text, rest), k) == Lookup(rest, k)
  {
    assert Lookup(NavigationGroup(text, rest), k) == Lookup(NavigationGroup(text, rest).rest.rest, k);
  }

  lemma ModelSelectionGroupSkip(text: Message -> string, rest: Entries<string>, k: string)
    requires k !in ["selectModel"]
    ensures Lookup(ModelSelectionGroup(text, rest), k) == Lookup(rest, k)
  {
    assert Lookup(ModelSelectionGroup(text, rest), k) == Lookup(ModelSelectionGroup(text, rest).rest, k);
  }

  lemma JobDescriptionGroupSkip(text: Message -> string, rest: Entries<string>, k: string)
    requires k !in ["jobDescription", "jobDescriptionSub", "jobDescriptionEntered", "jobDescriptionLabel", "jobDescriptionPlaceholder", "jobDescriptionInfo", "deleteJD"]
    ensures Lookup(JobDescriptionGroup(text, rest), k) == Lookup(rest, k)
  {
    assert Lookup(JobDescriptionGroup(text, rest), k) == Lookup(JobDescriptionGroup(text, rest).rest.rest, k);
    assert Lookup(JobDescriptionGroup(text, rest).rest.rest, k) == Lookup(JobDescriptionGroup(text, rest).rest.rest.rest.rest, k);
    assert Lookup(JobDescriptionGroup(text, rest).rest.rest.rest.rest, k) == Lookup(JobDescriptionGroup(text, rest).rest.rest.rest.rest.rest.rest, k);
    assert Lookup(JobDescriptionGroup(text, rest).rest.rest.rest.rest.rest.rest, k) == Lookup(JobDescriptionGroup(text, rest).rest.rest.rest.rest.rest.rest.rest, k);
  }

  lemma UploadGroupSkip(text: Message -> string, rest: Entries<string>, k: string)
    requires k !in ["uploadCV", "dropHere", "supportedFormats", "analyzing", "pleaseWait", "aiProcessing"]
    ensures Lookup(UploadGroup(text, rest), k) == Lookup(rest, k)
  {
    assert Lookup(UploadGroup(text, rest), k) == Lookup(UploadGroup(text, rest).rest.rest, k);
    assert Lookup(UploadGroup(text, rest).rest.rest, k) == Lookup(UploadGroup(text, rest).rest.rest.rest.rest, k);
    assert Lookup(UploadGroup(text, rest).rest.rest.rest.rest, k) == Lookup(UploadGroup(text, rest).rest.rest.rest.rest.rest.rest, k);
  }

  lemma ActionsGroupSkip(text: Message -> string, rest: Entries<string>, k: string)
    requires k !in ["analyzeNewCV", "analyzeAll", "exportExcel"]
    ensures Lookup(ActionsGroup(text, rest), k) == Lookup(rest, k)
  {
    assert Lookup(ActionsGroup(text, rest), k) == Lookup(ActionsGroup(text, rest).rest.rest, k);
    assert Lookup(ActionsGroup(text, rest).rest.rest, k) == Lookup(ActionsGroup(text, rest).rest.rest.rest, k);
  }

  lemma ScoringGroupSkip(text: Message -> string, rest: Entries<string>, k: string)
    requires k !in ["scoringTitle", "overallScore", "matchWithJD", "matchRate"]
    ensures Lookup(ScoringGroup(text, rest), k) == Lookup(rest, k)
  {
    assert Lookup(ScoringGroup(text, rest), k) == Lookup(ScoringGroup(text, rest).rest.rest, k);
    assert Lookup(ScoringGroup(text, rest).rest.rest, k) == Lookup(ScoringGroup(text, rest).rest.rest.rest.rest, k);
  }

  lemma ScoreBreakdownGroupSkip(text: Message -> string, rest: Entries<string>, k: string)
    requires k !in ["skillsScore", "experienceScore", "educationScore", "softSkillsScore"]
    ensures Lookup(ScoreBreakdownGroup(text, rest), k) == Lookup(rest, k)
  {
    assert Lookup(ScoreBreakdownGroup(text, rest), k) == Lookup(ScoreBreakdownGroup(text, rest).rest.rest, k);
    assert Lookup(ScoreBreakdownGroup(text, rest).rest.rest, k) == Lookup(ScoreBreakdownGroup(text, rest).rest.rest.rest.rest, k);
  }

  lemma SkillsMatchingGroupSkip(text: Message -> string, rest: Entries<string>, k: string)
    requires k !in ["matchingSkills", "missingSkills", "redFlags"]
    ensures Lookup(SkillsMatchingGroup(text, rest), k) == Lookup(rest, k)
  {
    assert Lookup(SkillsMatchingGroup(text, rest), k) == Lookup(SkillsMatchingGroup(text, rest).rest.rest, k);
    assert Lookup(SkillsMatchingGroup(text, rest).rest.rest, k) == Lookup(SkillsMatchingGroup(text, rest).rest.rest.rest, k);
  }

  lemma ProfileSectionsGroupSkip(text: Message -> string, rest: Entries<string>, k: string)
    requires k !in ["skills", "experience", "education", "strengths", "recommendations", "noInfo"]
    ensures Lookup(ProfileSectionsGroup(text, rest), k) == Lookup(rest, k)
  {
    assert Lookup(ProfileSectionsGroup(text, rest), k) == Lookup(ProfileSectionsGroup(text, rest).rest.rest, k);
    assert Lookup(ProfileSectionsGroup(text, rest).rest.rest, k) == Lookup(ProfileSectionsGroup(text, rest).rest.rest.rest.rest, k);
    assert Lookup(ProfileSectionsGroup(text, rest).rest.rest.rest.rest, k) == Lookup(ProfileSectionsGroup(text, rest).rest.rest.rest.rest.rest.rest, k);
  }

  lemma AiSuggestionsGroupSkip(text: Message -> string, rest: Entries<string>, k: string)
    requires k !in ["aiSuggestions", "aiSuggestionsDesc", "interviewQuestions", "salaryRecommendation", "careerPath"]
    ensures Lookup(AiSuggestionsGroup(text, rest), k) == Lookup(rest, k)
  {
    assert Lookup(AiSuggestionsGroup(text, rest), k) == Lookup(AiSuggestionsGroup(text, rest).rest.rest, k);
    assert Lookup(AiSuggestionsGroup(text, rest).rest.rest, k) == Lookup(AiSuggestionsGroup(text, rest).rest.rest.rest.rest, k);
    assert Lookup(AiSuggestionsGroup(text, rest).rest.rest.rest.rest, k) == Lookup(AiSuggestionsGroup(text, rest).rest.rest.rest.rest.rest, k);
  }

  lemma BatchAnalysisGroupSkip(text: Message -> string, rest: Entries<string>, k: string)
    requires k !in ["batchTitle", "batchSubtitle", "selectMultipleFiles", "filesSelected", "results"]
    ensures Lookup(BatchAnalysisGroup(text, rest), k) == Lookup(rest, k)
  {
    assert Lookup(BatchAnalysisGroup(text, rest), k) == Lookup(BatchAnalysisGroup(text, rest).rest.rest, k);
    assert Lookup(BatchAnalysisGroup(text, rest).rest.rest, k) == Lookup(BatchAnalysisGroup(text, rest).rest.rest.rest.rest, k);
    assert Lookup(BatchAnalysisGroup(text, rest).rest.rest.rest.rest, k) == Lookup(BatchAnalysisGroup(text, rest).rest.rest.rest.rest.rest, k);
  }

  lemma TableHeadersGroupSkip(text: Message -> string, rest: Entries<string>, k: string)
    requires k !in ["rank", "name", "score", "match", "skillsLabel", "redFlagsLabel", "clean", "flags"]
    ensures Lookup(TableHeadersGroup(text, rest), k) == Lookup(rest, k)
  {
    assert Lookup(TableHeadersGroup(text, rest), k) == Lookup(TableHeadersGroup(text, rest).rest.rest, k);
    assert Lookup(TableHeadersGroup(text, rest).rest.rest, k) == Lookup(TableHeadersGroup(text, rest).rest.rest.rest.rest, k);
    assert Lookup(TableHeadersGroup(text, rest).rest.rest.rest.rest, k) == Lookup(TableHeadersGroup(text, rest).rest.rest.rest.rest.rest.rest, k);
    assert Lookup(TableHeadersGroup(text, rest).rest.rest.rest.rest.rest.rest, k) == Lookup(TableHeadersGroup(text, rest).rest.rest.rest.rest.rest.rest.rest.rest, k);
  }

  lemma MessagesGroupSkip(text: Message -> string, rest: Entries<string>, k: string)
    requires k !in ["successMessage", "successSubMessage", "errorMessage", "selectAtLeastOne", "batchError", "exportError"]
    ensures Lookup(MessagesGroup(text, rest), k) == Lookup(rest, k)
  {
    assert Lookup(MessagesGroup(text, rest), k) == Lookup(MessagesGroup(text, rest).rest.rest, k);
    assert Lookup(MessagesGroup(text, rest).rest.rest, k) == Lookup(MessagesGroup(text, rest).rest.rest.rest.rest, k);
    assert Lookup(MessagesGroup(text, rest).rest.rest.rest.rest, k) == Lookup(MessagesGroup(text, rest).rest.rest.rest.rest.rest.rest, k);
  }

  lemma MainPageSkip(text: Message -> string, rest: Entries<string>, k: string)
    requires k !in ["title", "subtitle", "features", "batchAnalysis", "backToSingle",
                    "selectModel", "jobDescription", "jobDescriptionSub", "jobDescriptionEntered", "jobDescriptionLabel",
                    "jobDescriptionPlaceholder", "jobDescriptionInfo", "deleteJD", "uploadCV", "dropHere",
                    "supportedFormats", "analyzing", "pleaseWait", "aiProcessing", "analyzeNewCV",
                    "analyzeAll", "exportExcel"]
    ensures Lookup(MainPage(text, rest), k) == Lookup(rest, k)
  {
    var r7 := rest;
    var r6 := ActionsGroup(text, r7);
    var r5 := UploadGroup(text, r6);
    var r4 := JobDescriptionGroup(text, r5);
    var r3 := ModelSelectionGroup(text, r4);
    var r2 := NavigationGroup(text, r3);
    var r1 := FeaturesGroup(text, r2);
    var r0 := HeaderGroup(text, r1);
    HeaderGroupSkip(text, r1, k);
    FeaturesGroupSkip(text, r2, k);
    NavigationGroupSkip(text, r3, k);
    ModelSelectionGroupSkip(text, r4, k);
    JobDescriptionGroupSkip(text, r5, k);
    UploadGroupSkip(text, r6, k);
    ActionsGroupSkip(text, r7, k);
  }

  lemma ResultViewSkip(text: Message -> string, rest: Entries<string>, k: string)
    requires k !in ["scoringTitle", "overallScore", "matchWithJD", "matchRate", "skillsScore",
                    "experienceScore", "educationScore", "softSkillsScore", "matchingSkills", "missingSkills",
                    "redFlags", "skills", "experience", "education", "strengths",
                    "recommendations", "noInfo", "aiSuggestions", "aiSuggestionsDesc", "interviewQuestions",
                    "salaryRecommendation", "careerPath"]
    ensures Lookup(ResultView(text, rest), k) == Lookup(rest, k)
  {
    var r12 := rest;
    var r11 := AiSuggestionsGroup(text, r12);
    var r10 := ProfileSectionsGroup(text, r11);
    var r9 := SkillsMatchingGroup(text, r10);
    var r8 := ScoreBreakdownGroup(text, r9);
    var r7 := ScoringGroup(text, r8);
    ScoringGroupSkip(text, r8, k);
    ScoreBreakdownGroupSkip(text, r9, k);
    SkillsMatchingGroupSkip(text, r10, k);
    ProfileSectionsGroupSkip(text, r11, k);
    AiSuggestionsGroupSkip(text, r12, k);
  }

  lemma BatchPageSkip(text: Message -> string, rest: Entries<string>, k: string)
    requires k !in ["batchTitle", "batchSubtitle", "selectMultipleFiles", "filesSelected", "results",
                    "rank", "name", "score", "match", "skillsLabel",
                    "redFlagsLabel", "clean", "flags", "successMessage", "successSubMessage",
                    "errorMessage", "selectAtLeastOne", "batchError", "exportError"]
    ensures Lookup(BatchPage(text, rest), k) == Lookup(rest, k)
  {
    var r15 := rest;
    var r14 := MessagesGroup(text, r15);
    var r13 := TableHeadersGroup(text, r14);
    var r12 := BatchAnalysisGroup(text, r13);
    BatchAnalysisGroupSkip(text, r13, k);
    TableHeadersGroupSkip(text, r14, k);
    MessagesGroupSkip(text, r15, k);
  }

  // ---------------------------------------------------------------------------
  // Worked examples
  // ---------------------------------------------------------------------------

  lemma MainPageFeatures(text: Message -> string, rest: Entries<string>)
    ensures Child(Lookup(MainPage(text, rest), "features"), "fast") == Some(Leaf(text(FeaturesFast)))
  {
    var s7 := rest;
    var s6 := ActionsGroup(text, s7);
    var s5 := UploadGroup(text, s6);
    var s4 := JobDescriptionGroup(text, s5);
    var s3 := ModelSelectionGroup(text, s4);
    var s2 := NavigationGroup(text, s3);
    var s1 := FeaturesGroup(text, s2);
    var s0 := HeaderGroup(text, s1);
    assert MainPage(text, rest) == s0;
    HeaderGroupSkip(text, s1, "features");
  }

  /** `'features.fast'` descends `features`, then `fast`. */
  lemma FeaturesFastInTable(text: Message -> string)
    ensures Resolve(Table(text), "features.fast") == Some(Leaf(text(FeaturesFast)))
  {
    ResolveTwoLevels(Table(text), "features", "fast");
    assert "features" + "." + "fast" == "features.fast";
    MainPageFeatures(text, ResultView(text, BatchPage(text, End)));
  }

  /** The texts the examples below show are non-empty, hence truthy, in both languages. */
  lemma ExampleTextsNonEmpty(lang: Language)
    ensures TextFn(lang)(FeaturesFast) != "" && TextFn(lang)(FilesSelected) != ""
  {
  }

  /** The literal texts of the examples below. */
  lemma ExampleTexts()
    ensures ViText(FeaturesFast) == "⚡ Nhanh chóng"
    ensures ViText(FilesSelected) == "Đã chọn {count} file(s):"
    ensures KoText(FilesSelected) == "{count}개 파일 선택됨:"
  {
  }

  /** Both languages have a non-empty text there, so it is shown as is. */
  lemma FeaturesFastShown(lang: Language)
    ensures GetTranslation(lang, "features.fast", None) == Leaf(TextFn(lang)(FeaturesFast))
  {
    FeaturesFastInTable(TextFn(lang));
    ExampleTextsNonEmpty(lang);
    NoParamsKeepsPlaceholders(TableOf(lang), "features.fast", TextFn(lang)(FeaturesFast));
  }

  /** In Vietnamese `'features.fast'` reads "⚡ Nhanh chóng". */
  lemma FeaturesFastInVietnamese()
    ensures GetTranslation(Vi, "features.fast", None) == Leaf("⚡ Nhanh chóng")
  {
    FeaturesFastShown(Vi);
    ExampleTexts();
  }

  lemma MainPageLacksNo(text: Message -> string, rest: Entries<string>)
    ensures Lookup(MainPage(text, rest), "no") == Lookup(rest, "no")
  {
    MainPageSkip(text, rest, "no");
  }

  lemma ResultViewLacksNo(text: Message -> string, rest: Entries<string>)
    ensures Lookup(ResultView(text, rest), "no") == Lookup(rest, "no")
  {
    ResultViewSkip(text, rest, "no");
  }

  lemma BatchPageLacksNo(text: Message -> string, rest: Entries<string>)
    ensures Lookup(BatchPage(text, rest), "no") == Lookup(rest, "no")
  {
    BatchPageSkip(text, rest, "no");
  }

  /** No top-level key is called `no`. */
  lemma NoKeyInTable(text: Message -> string)
    ensures Lookup(Table(text).entries, "no") == None
  {
    BatchPageLacksNo(text, End);
    ResultViewLacksNo(text, BatchPage(text, End));
    MainPageLacksNo(text, ResultView(text, BatchPage(text, End)));
  }

  /** An unknown key is shown verbatim, with or without parameters. */
  lemma UnknownKeyShown(text: Message -> string, params: Option<map<string, Param>>)
    ensures Translate(Table(text), "no.such.key", params) == Leaf("no.such.key")
  {
    assert "no.such.key" == "no" + ['.'] + "such.key";
    Text.SplitOnce("no", "such.key", '.');
    var segments := Text.Split("no.such.key", '.');
    assert segments[..1] == ["no"];
    NoKeyInTable(text);
    assert Descend(Some(Table(text)), ["no"]) == Descend(None, []);
    MissingSegmentShowsKey(Table(text), "no.such.key", params, 0);
  }

  /** The same in either language. */
  lemma UnknownKeyShowsKey(lang: Language, params: Option<map<string, Param>>)
    ensures GetTranslation(lang, "no.such.key", params) == Leaf("no.such.key")
  {
    UnknownKeyShown(TextFn(lang), params);
  }

  /** Neither the main-page block nor the result-view block declares
      `filesSelected`, so a lookup passes through both. */
  lemma FilesSelectedPassesThrough(text: Message -> string, rest: Entries<string>)
    ensures Lookup(MainPage(text, rest), "filesSelected") == Lookup(rest, "filesSelected")
    ensures Lookup(ResultView(text, rest), "filesSelected") == Lookup(rest, "filesSelected")
  {
    MainPageSkip(text, rest, "filesSelected");
    ResultViewSkip(text, rest, "filesSelected");
  }

  lemma BatchPageFilesSelected(text: Message -> string, rest: Entries<string>)
    ensures Lookup(BatchPage(text, rest), "filesSelected") == Some(Leaf(text(FilesSelected)))
  {
    var s15 := rest;
    var s14 := MessagesGroup(text, s15);
    var s13 := TableHeadersGroup(text, s14);
    var s12 := BatchAnalysisGroup(text, s13);
    assert BatchPage(text, rest) == s12;
    assert Lookup(s12, "filesSelected") == Lookup(s12.rest.rest, "filesSelected");
    assert Lookup(s12.rest.rest, "filesSelected") == Lookup(s12.rest.rest.rest, "filesSelected");
  }

  /** `'filesSelected'` is a top-level key of the batch page. */
  lemma FilesSelectedInTable(text: Message -> string)
    ensures Resolve(Table(text), "filesSelected") == Some(Leaf(text(FilesSelected)))
  {
    TableEntriesFilesSelected(text);
    ResolveTopLevelLeaf(MainPage(text, ResultView(text, BatchPage(text, End))), "filesSelected",
                        text(FilesSelected));
  }

  lemma TableEntriesFilesSelected(text: Message -> string)
    ensures Lookup(MainPage(text, ResultView(text, BatchPage(text, End))), "filesSelected")
         == Some(Leaf(text(FilesSelected)))
  {
    BatchPageFilesSelected(text, End);
    FilesSelectedPassesThrough(text, BatchPage(text, End));
    FilesSelectedPassesThrough(text, ResultView(text, BatchPage(text, End)));
  }

  /** Without parameters the placeholder is left in place. */
  lemma FilesSelectedWithoutParams(lang: Language)
    ensures GetTranslation(lang, "filesSelected", None) == Leaf(TextFn(lang)(FilesSelected))
  {
    FilesSelectedInTable(TextFn(lang));
    ExampleTextsNonEmpty(lang);
    NoParamsKeepsPlaceholders(TableOf(lang), "filesSelected", TextFn(lang)(FilesSelected));
  }

  /** In Vietnamese, unfilled, it reads "Đã chọn {count} file(s):". */
  lemma FilesSelectedInVietnamese()
    ensures GetTranslation(Vi, "filesSelected", None) == Leaf("Đã chọn {count} file(s):")
  {
    FilesSelectedWithoutParams(Vi);
    ExampleTexts();
  }

  /** With parameters every placeholder is filled from them. */
  lemma FilesSelectedFilled(lang: Language, params: map<string, Param>)
    ensures GetTranslation(lang, "filesSelected", Some(params)) ==
              Leaf(Substitute(TextFn(lang)(FilesSelected), Fill(params)))
  {
    FilesSelectedInTable(TextFn(lang));
  }

  lemma SuffixHasNoPlaceholder(fill: string -> string)
    ensures Substitute("개 파일 선택됨:", fill) == "개 파일 선택됨:"
  {
    assert '{' !in "개 파일 선택됨:";
  }

  /** `{count}` followed by literal text becomes the count's text followed by that text. */
  lemma CountPlaceholder(fill: string -> string)
    ensures Substitute("{count}개 파일 선택됨:", fill) == fill("count") + "개 파일 선택됨:"
  {
    assert "{count}개 파일 선택됨:" == "{" + "count" + "}" + "개 파일 선택됨:";
    Placeholder("count", "개 파일 선택됨:", fill);
    SuffixHasNoPlaceholder(fill);
  }

  /** In Korean the count's text comes first, then "개 파일 선택됨:". */
  lemma FilesSelectedKoreanFilled(params: map<string, Param>)
    ensures GetTranslation(Ko, "filesSelected", Some(params)) ==
              Leaf(ParamText(params, "count") + "개 파일 선택됨:")
  {
    FilesSelectedFilled(Ko, params);
    ExampleTexts();
    CountPlaceholder(Fill(params));
  }

  /** `{count: n}` puts the decimal text of `n` in place of `{count}`, except that
      0 is falsy and leaves nothing there. */
  lemma FilesSelectedInKorean(n: Translations.SafeInteger)
    ensures n != 0 ==> GetTranslation(Ko, "filesSelected", Some(map["count" := JsNumber(n)])) ==
                         Leaf(Text.IntToString(n) + "개 파일 선택됨:")
    ensures n == 0 ==> GetTranslation(Ko, "filesSelected", Some(map["count" := JsNumber(n)])) ==
                         Leaf("개 파일 선택됨:")
  {
    FilesSelectedKoreanFilled(map["count" := JsNumber(n)]);
    NumberParamText("count", n);
    assert "" + "개 파일 선택됨:" == "개 파일 선택됨:";
  }
}
