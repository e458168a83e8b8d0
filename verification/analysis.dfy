/** The data that flows between the backend and the two result views: one
    candidate's analysis, a batch entry wrapping it with its file name, and the
    failures the backend raises. */
module Analysis {
  import Text

  /** One candidate's analysis, field for field as the backend's response model
      declares it (backend/main.py:34-56). Scores are plain integers: nothing in
      the system clamps them to 0..100. */
  datatype AnalysisResult = AnalysisResult(
    summary: string,
    name: string,
    email: string,
    phone: string,
    skills: seq<string>,
    experience: string,
    education: string,
    strengths: seq<string>,
    recommendations: seq<string>,
    interviewQuestions: seq<string>,
    salaryRange: string,
    careerPath: seq<string>,
    overallScore: int,
    skillsScore: int,
    experienceScore: int,
    educationScore: int,
    softSkillsScore: int,
    matchPercentage: int,
    matchingSkills: seq<string>,
    missingSkills: seq<string>,
    redFlags: seq<string>)

  /** A raised exception. `HttpError` is FastAPI's `HTTPException` with its status
      and the reason its detail text carries; `Raised` is any other exception,
      from a foreign library or from Python itself. */
  datatype Failure =
    | HttpError(status: int, reason: Reason)
    | Raised(message: string)

  /** The detail of an `HTTPException`: either a fixed message or a wrapper that
      embeds the text of an earlier failure. */
  datatype Reason =
    | Detail(text: string)
    | AiFailed(cause: Failure)          // "Lỗi phân tích AI: ..."
    | ProcessingFailed(cause: Failure)  // "Lỗi xử lý file: ..."
    | ExportFailed(cause: Failure)      // "Lỗi export Excel: ..."

  /** A batch entry is either `{filename, analysis}` or `{filename, error}`. */
  datatype ItemOutcome = Analysed(analysis: AnalysisResult) | Errored(error: Failure)

  datatype BatchItem = BatchItem(filename: string, outcome: ItemOutcome)

  /** An uploaded file: the name the browser sent and its raw bytes. */
  datatype Upload = Upload(filename: string, content: seq<Text.byte>)
}
