# CV Analyzer in Dafny

A model of the CV Analyzer: a FastAPI backend that sends a CV's text to one of
three AI providers (Gemini, Claude, OpenRouter) and returns a structured
analysis, and a Next.js frontend that shows one analysis, or ranks a batch of
them and exports the batch to Excel.

The model covers the logic the two sides run between the HTTP boundaries:

- **Translations** (`frontend/lib/translations.ts`). The Vietnamese and Korean
  tables are modelled as trees, and `getTranslation` as descent along the
  dotted key. `{name}` substitution uses JavaScript's falsy fallback, so an absent param
  and a count of 0 both become the empty string. An unresolved key is shown
  as itself, and a key naming a whole section returns the section object.
- **Skill badges** (`frontend/components/SkillBadge.tsx`). Icons are looked up
  by the lower-cased, trimmed name in the 78-entry table. The colour is the
  name's UTF-16 length modulo six.
- **Result view** (`frontend/components/ResultSection.tsx`). The view models:
  - the three score bands and their text and bar colours;
  - when the scoring panel appears, and what it shows;
  - the avatar initial and the text fallbacks;
  - the numbered career steps and `Q1.`, `Q2.` … questions.
- **Batch page** (`frontend/app/batch/page.tsx`). Each handler is a state
  transition that also yields an alert and a request. The table is sorted by
  score with a stable sort, and each row shows the first three skills, a `+n`
  tag and a red-flag count.
- **AI layer** (`backend/main.py`, `analyze_cv_with_ai` and the three provider
  functions). It builds the prompt and picks a provider from the model id. It
  maps that id to the provider's own model id and checks the API keys. Each
  provider's HTTP status handling is modelled. All three providers share one
  reply pipeline: strip the code fence, blank control characters, parse,
  then flatten the `experience` and `education` lists.
- **Endpoints** (`backend/main.py`):
  - `analyze_cv` with its in-memory cache keyed by the file bytes and the
    model id;
  - `clear_cache`;
  - `batch_analyze_cvs`: at most ten files, one entry per file with a known
    extension;
  - `export_to_excel`: the sheet's cells and the width of each column.

The HTTP exchange, `json.loads`, the pydantic constructor and the PDF, DOCX and
UTF-8 text extractors are function-valued parameters (`AiRouting.Services`,
`Extraction.Extractors`). Every contract holds for any behaviour of theirs.

Files: `wrappers.dfy` (Option/Result), `text.dfy` (strings: split/join, trim,
case, integer text, UTF-8 and UTF-16 lengths), `analysis.dfy` (the analysis
record and failures), then one file per component as listed above.
`translation_tables.dfy` and `skill_icon_table.dfy` hold the literal tables.

## Model

| member | source | states |
|---|---|---|
| Translations.Translate | frontend/lib/translations.ts:202-215 | An unresolved key returns the key itself. Without params a truthy value is returned as is, and an empty string falls back to the key. With params, a string value has every `{word}` replaced through the params, and a section is returned as the section object. |
| Translations.DescendAppend | frontend/lib/translations.ts:206-208 | Walking a path in two pieces is the same as walking it at once, so the lookup loop composes. |
| Translations.ResolveTwoLevels | frontend/lib/translations.ts:203-208 | A dotted key `a.b` descends to child `a` and then to its child `b`. |
| Translations.MissingSegmentShowsKey | frontend/lib/translations.ts:206-214 | Once any segment of the key is missing, the whole key is shown, with or without params. |
| Translations.NoParamsKeepsPlaceholders | frontend/lib/translations.ts:210-214 | Without params, a non-empty string comes back verbatim, placeholders included. |
| Translations.Placeholder | frontend/lib/translations.ts:211 | `{w}` is replaced by the fill of `w`, and substitution continues after it. |
| Translations.Substitute | frontend/lib/translations.ts:211 | Text without `{` comes back unchanged; each placeholder's replacement is stated by `Translations.Placeholder`. |
| Translations.FillWithSelf | frontend/lib/translations.ts:211 | Filling every placeholder with its own `{name}` gives back the original text (round trip). |
| Translations.ParamText | frontend/lib/translations.ts:211 | The text is empty exactly when the param is missing or falsy (`""`, 0, `NaN`, `false`, `null`, `undefined`). Otherwise a string is used as is, a non-zero safe integer by its decimal text, `true` as `true`, and a plain object as `[object Object]`. |
| Translations.SameShapeResolve | frontend/lib/translations.ts:3-200 | Two tables of the same shape resolve the same keys, and each key is a string in both or a section in both. |
| TranslationTables.TableShape | frontend/lib/translations.ts:4-199 | The Vietnamese and Korean tables share one layout: the same keys in the same order at every level, with a string in one exactly where the other has a string. |
| TranslationTables.SameKeysInBothLanguages | frontend/lib/translations.ts:4-199 | A key resolves in one language exactly when it resolves in the other, and to the same kind of node. |
| TranslationTables.FeaturesFastInVietnamese | frontend/lib/translations.ts:10-14 | `features.fast` in Vietnamese is `⚡ Nhanh chóng`. |
| TranslationTables.UnknownKeyShowsKey | frontend/lib/translations.ts:214 | An unknown key is shown as itself in both languages, with or without params. |
| TranslationTables.FilesSelectedInKorean | frontend/lib/translations.ts:179 | The Korean `filesSelected` with a count of n ≠ 0 reads `n개 파일 선택됨:`. With a count of 0 the number disappears. |
| TranslationTables.FilesSelectedInVietnamese | frontend/lib/translations.ts:81 | Without params the Vietnamese text keeps its `{count}` placeholder. |
| SkillIconTable.SkillIconsWellFormed | frontend/components/SkillBadge.tsx:7-99 | Every entry of the icon table is a non-empty icon other than the default wrench. |
| SkillBadge.IconIn | frontend/components/SkillBadge.tsx:102-103 | The icon is never empty, and a skill whose normalised name is not in the table gets the wrench. |
| SkillBadge.IconFound | frontend/components/SkillBadge.tsx:102-103 | A skill gets a specific icon exactly when its normalised name is a key, and that icon is the entry's. |
| SkillBadge.NormaliseIdempotent | frontend/components/SkillBadge.tsx:102 | Lower-casing and trimming twice is the same as once. |
| SkillBadge.IconIgnoresPadding | frontend/components/SkillBadge.tsx:102 | Surrounding whitespace never changes the icon. |
| SkillBadge.IconOfNormalised | frontend/components/SkillBadge.tsx:102-103 | A normalised name gets the same icon as the raw name. |
| SkillBadge.Render | frontend/components/SkillBadge.tsx:114-127 | The badge shows the skill text as given, with its icon and the colour class its length selects. |
| SkillBadge.SameColorIffSameIndex | frontend/components/SkillBadge.tsx:105-115 | Two skills share a colour exactly when their lengths agree modulo six. |
| SkillBadge.ColorRepeatsEverySix | frontend/components/SkillBadge.tsx:114 | Appending six UTF-16 units to a skill keeps its colour: the palette cycles every six lengths. |
| SkillBadge.PrefixChangesColor | frontend/components/SkillBadge.tsx:114 | A prefix leaves the colour unchanged exactly when its UTF-16 length is a multiple of six. The colour comes from the raw length, so padding can change it even though the icon stays the same. |
| SkillBadgeExamples.ReactColors | frontend/components/SkillBadge.tsx:114 | `" React"` is blue and `"React"` is indigo. |
| SkillBadgeExamples.ReactIcon | frontend/components/SkillBadge.tsx:102-103 | `React` and `react`, with any padding, get the ⚛️ icon. |
| SkillBadgeExamples.UnknownSkillIcon | frontend/components/SkillBadge.tsx:103 | `COBOL` gets the wrench. |
| ResultSection.ScoreColor | frontend/components/ResultSection.tsx:36-40 | The text colour of a score is that of its band: 80 and up, 60–79, below 60. |
| ResultSection.ScoreBgColor | frontend/components/ResultSection.tsx:42-46 | The bar colour is chosen by the same bands. |
| ResultSection.BandMonotone | frontend/components/ResultSection.tsx:36-40 | A higher score never lands in a lower band. |
| ResultSection.ColoursAgree | frontend/components/ResultSection.tsx:36-46 | Two scores share a text colour exactly when they share a bar colour, exactly when they share a band. |
| ResultSection.BarWidth | frontend/components/ResultSection.tsx:93 | The bar width `n%` reads back as the score itself, unclamped. |
| ResultSection.Breakdown | frontend/components/ResultSection.tsx:79-97 | Four meters in the order skills, experience, education, soft skills. Each shows its caption and its score, read back from both the text and the width. The reading's class and the bar's class are their fixed classes followed by the band's colour. |
| ResultSection.ScoringPanel | frontend/components/ResultSection.tsx:34-152 | The panel appears exactly when the overall score or the match rate is positive. It shows both numbers under the class the view writes, which never ends in the score's colour, and the four breakdown meters. The matching and missing skill lists are shown themselves; the block and each side of it appear exactly when their lists are non-empty. The red flags are shown exactly when there are any. |
| ResultSection.PanelIgnoresText | frontend/components/ResultSection.tsx:51-152 | The free-text fields never affect the panel. |
| ResultSection.NoPanelWithoutMatching | frontend/components/ResultSection.tsx:34-51 | With both headline numbers at or below 0 there is no panel, whatever the sub-scores. |
| ResultSection.HeadlineClassAsWritten | frontend/components/ResultSection.tsx:60-69 | As written, a headline number's class is the fixed base followed by the uninterpolated `${...}` text, so it ends in `}` whatever the score. |
| ResultSection.HeadlineClass | frontend/components/ResultSection.tsx:60-69 | Corrected: the base followed by the text colour of the score's band, so the class ends in that colour. |
| ResultSection.HeadlineColourIgnored | frontend/components/ResultSection.tsx:60-69 | As written, the headline class is the same for every score and never carries the score's colour. |
| ResultSection.HeadlineFollowsBand | frontend/components/ResultSection.tsx:60-69 | With the correction, two headline numbers get the same class exactly when they share a band. |
| ResultSection.Initial | frontend/components/ResultSection.tsx:158 | The avatar is one character: `?` for an empty name, otherwise the upper-cased first character. |
| ResultSection.InitialIgnoresCase | frontend/components/ResultSection.tsx:158 | Lower-casing the name does not change the avatar. |
| ResultSection.HeaderOf | frontend/components/ResultSection.tsx:155-313 | The avatar initial; the name, or `Không xác định` when it is empty; email, phone and summary each shown exactly when non-empty; education and experience (lines 217, 228), or `Không có thông tin`; the salary (line 313), or `Chưa có thông tin`. |
| ResultSection.HeaderNeverBlank | frontend/components/ResultSection.tsx:161-313 | Name, education, experience and salary never render blank. The name shows its placeholder exactly when it is empty or is the placeholder text itself, and likewise the salary. |
| ResultSection.HeaderIgnoresScores | frontend/components/ResultSection.tsx:155-188 | Two analyses with the same text fields get the same header, whatever their scores and lists. |
| ResultSection.ListsOf | frontend/components/ResultSection.tsx:198-330 | Skills, strengths, recommendations, the labelled questions and the numbered career steps each show their entries exactly when the list is non-empty, and `Không có thông tin` otherwise. |
| ResultSection.ListsShowEveryEntry | frontend/components/ResultSection.tsx:239-330 | Each list shows all of its entries in input order: question i as `Q{i+1}.` with question i, and career steps that read back from their numbered form. |
| ResultSection.CareerStepsInOrder | frontend/components/ResultSection.tsx:325-330 | Career steps are numbered from 1 in increasing order, and dropping the numbers gives back the steps. |
| ResultSection.LabelledQuestionsNumbering | frontend/components/ResultSection.tsx:290-293 | Question i carries label `Q{i+1}.`. |
| ResultSection.QuestionLabelsDistinct | frontend/components/ResultSection.tsx:293 | No two questions carry the same label. |
| ResultSection.UnnumberedNumbered | frontend/components/ResultSection.tsx:325-330 | Numbering a list and dropping the numbers again is the identity. |
| BatchPage.SelectFiles | frontend/app/batch/page.tsx:18-23 | Keeps the first min(n, 10) chosen files in order. An absent list changes nothing, and nothing else in the state changes. |
| BatchPage.SelectFilesIdempotent | frontend/app/batch/page.tsx:20 | Selecting the already selected files again changes nothing. |
| BatchPage.StartAnalysis | frontend/app/batch/page.tsx:25-43 | With no files there is an alert, no request and no change. Otherwise it sets loading, clears the results and sends the files, job description and model. |
| BatchPage.FinishAnalysis | frontend/app/batch/page.tsx:45-54 | Loading always ends. Delivered results replace the list. A failure alerts and keeps the (already cleared) list. |
| BatchPage.FailedAnalysisClearsResults | frontend/app/batch/page.tsx:31-53 | After a failed run the table is empty, not the previous results. |
| BatchPage.StartExport | frontend/app/batch/page.tsx:57-64 | The export sends exactly the results in the order received, a permutation of the displayed order, with no alert and no change of state. |
| BatchPage.ExportOrderDiffersFromTable | frontend/app/batch/page.tsx:63-84 | With two results out of score order, the export order differs from the table's. |
| BatchPage.FinishExport | frontend/app/batch/page.tsx:66-77 | An export alerts exactly when it fails and never changes state. |
| BatchPage.ExportKeepsPage | frontend/app/batch/page.tsx:57-77 | An export, succeeding or failing, leaves the page as it was, and its body is the received list. |
| Rows.FlagText | frontend/app/batch/page.tsx:214-220 | `✓ Clean` exactly for zero flags. Otherwise the count reads back from `⚠️ n flag(s)`. |
| Rows.MoreSkillsTag | frontend/app/batch/page.tsx:208-210 | The `+n` tag appears exactly beyond three skills, and n is the number left out. |
| Rows.ShownSkills | frontend/app/batch/page.tsx:203 | The first min(n, 3) skills, in order. |
| Rows.RowFor | frontend/app/batch/page.tsx:183-221 | Rank, filename and score of the row. The name cell shows the name, or `N/A` when it is empty. The match cell is the match rate followed by `%`, and it reads back. Both cells are coloured by the score's band. The shown skills plus the hidden count make up the whole list. The flag cell is `✓ Clean` exactly when there are no red flags, and otherwise reads back the number of flags. |
| Rows.ErroredRow | frontend/app/batch/page.tsx:184-199 | An errored entry shows `N/A`, 0, `0%`, no skills, clean. |
| Rows.DisplayIsPermutation | frontend/app/batch/page.tsx:80 | The table shows every result once. |
| Rows.TableRankedByScore | frontend/app/batch/page.tsx:183-196 | Ranks run 1, 2, … over the list sorted at lines 80-84, and scores never increase down the table. |
| Ranking.SortByScore | frontend/app/batch/page.tsx:80-84 | The sort is a permutation in non-increasing score order, with a missing score read as 0. |
| Ranking.SortStable | frontend/app/batch/page.tsx:80-84 | Entries with equal scores keep their relative order. |
| Ranking.SortCharacterised | frontend/app/batch/page.tsx:80-84 | Any score-ordered arrangement that keeps each score's entries in their original order is the sort's result. |
| Ranking.SortIdempotent | frontend/app/batch/page.tsx:80-84 | Sorting a sorted list changes nothing. |
| AiReply.StripFences | backend/main.py:437-444 | The reply after fence removal carries no surrounding whitespace. |
| AiReply.JsonFencedReply | backend/main.py:434-444 | A reply in a ```` ```json ```` fence yields exactly its trimmed body. |
| AiReply.BareFencedReply | backend/main.py:434-444 | A reply in a bare ```` ``` ```` fence yields exactly its trimmed body. |
| AiReply.UnfencedReply | backend/main.py:437-444 | A trimmed reply without fences is unchanged. |
| AiReply.Sanitize | backend/main.py:448 | Same length. Each character is blanked to a space exactly when it is a C0 or C1 control or DEL. |
| AiReply.SanitizeIdempotent | backend/main.py:448 | Blanking twice is the same as once. |
| AiReply.CleanReply | backend/main.py:434-448 | The text handed to the JSON parser holds no control character. |
| AiReply.CleanFencedReply | backend/main.py:434-448 | A fenced reply whose body has no control characters is handed to the parser as that body, trimmed. |
| AiReply.Normalise | backend/main.py:458-467 | Succeeds exactly when neither `experience` nor `education` is a list holding a non-object; otherwise it fails with the `AttributeError` of the first non-object, `experience` checked first. On success the keys are the same. A list-valued `experience` becomes its entries' `title - company`, duration and description lines, entries separated by a blank line. A list-valued `education` becomes its entries' `degree - major` and `school (year)` lines. Every other field and every non-list value is unchanged. |
| AiReply.NormaliseIdempotent | backend/main.py:458-467 | Normalising a successfully normalised reply again changes nothing. |
| AiReply.EducationTextSplits | backend/main.py:465-467 | For one-line fields, splitting the flattened education at newlines gives back, per entry, the `degree - major` line and the `school (year)` line. |
| AiReply.ExperienceTextSplits | backend/main.py:458-462 | For one-line fields, splitting the flattened experience at newlines gives back each entry's three lines in order, with one empty line between two entries. |
| AiRouting.Prompt | backend/main.py:316-395 | The prompt ends with the CV section. It starts with the matching instructions and the job description exactly when one is given, and otherwise with the plain instructions. |
| AiRouting.PromptDeterminesCv | backend/main.py:316-395 | Different CVs give different prompts. |
| AiRouting.Route | backend/main.py:398-408 | Gemini exactly for a `gemini` prefix, and Claude exactly for `claude-sonnet`. OpenRouter exactly for an `openrouter` prefix otherwise. Any other id is a 400 naming the model. |
| AiRouting.OfferedModelsRoute | backend/main.py:398-408 | All six ids offered by `/models` (lines 205-250) route: three to Gemini and three to OpenRouter. `claude-sonnet` routes to Claude but is not offered, and `claude-sonnet-4` is refused. |
| AiRouting.OpenRouterModel | backend/main.py:565-571 | The three known ids map to their OpenRouter names. Every other id maps to Claude 3.5 Sonnet. |
| AiRouting.ProviderModel | backend/main.py:414-583 | Gemini gets the requested id in its URL (line 416), Claude always `claude-3-5-sonnet-20241022` (line 491), and OpenRouter one of its three vendor ids (line 583), never the `openrouter-…` id that was requested. |
| AiRouting.OfferedProviderModels | backend/main.py:565-571 | Each offered OpenRouter id reaches OpenRouter under its vendor id, and an unknown one under Claude 3.5 Sonnet. A Gemini id is passed through. |
| AiRouting.KeyProblem | backend/main.py:476-480 | Claude (here) or OpenRouter (lines 558-562) refuse with a 400 exactly when their key is unset, empty or the sample value. Gemini checks nothing. |
| AiRouting.Fetch | backend/main.py:414-649 | Gemini raises on a status in 400-599, the range `raise_for_status` checks, and accepts every other status. Claude and OpenRouter accept exactly 200. On another status they answer with a 400 quoting the body's `error.message`, or their fallback text, when the body is empty or a JSON object whose `error` is absent or an object. A body that is not JSON gives the 500 connection error, and a non-object where `.get` is called raises an `AttributeError`. A connection error is a 500. |
| AiRouting.Status201 | backend/main.py:431-502 | A 201 is read from Gemini and refused from Claude. |
| AiRouting.UndecodableBodyLooksLikeNoConnection | backend/main.py:502-554 | For Claude and OpenRouter, an error reply whose body is not JSON fails with the same 500 as a failed connection with the same message. |
| AiRouting.StringErrorFieldRaises | backend/main.py:502-508 | A string-valued `error` field raises `'str' object has no attribute 'get'` instead of giving the 400. |
| AiRouting.CallProvider | backend/main.py:472-554 | A key problem fails before any request, and a request failure is passed on. A parse failure is a 500 with the parser's message, and a reply the normalisation cannot flatten fails with its `AttributeError`. Otherwise the normalised reply is constructed. |
| AiRouting.MissingKeySendsNothing | backend/main.py:476-480 | Without a usable key (Claude here, OpenRouter at lines 558-562) the services are never consulted. |
| AiRouting.AnalyseWithAi | backend/main.py:397-412 | Every failure, the routing's 400 included, comes out as a 500 wrapping the original. |
| AiRouting.UnsupportedModelSendsNothing | backend/main.py:406-412 | An unsupported id never reaches a provider. |
| Extraction.FormatOf | backend/main.py:285-290 | `.txt`, `.pdf`, `.docx` each select their extractor (here and in the batch loop, lines 101-108) exactly when the name ends in them, and no other name does. |
| Extraction.SupportedHasFormat | backend/main.py:264-290 | The upload guard accepts exactly the names an extractor handles. |
| Extraction.UpperCaseRefused | backend/main.py:264 | `.PDF` is refused: the test is case-sensitive. |
| AnalysisCache.CacheKey | backend/main.py:275 | The key is the file bytes followed by exactly the model id's UTF-8 bytes. |
| AnalysisCache.CacheKeySeparatesModels | backend/main.py:275 | For one file, two model ids share a key exactly when they are the same id. |
| AnalysisCache.CacheKeyIdentifiesRequest | backend/main.py:275 | Among files of one size, two requests share a key exactly when both content and model id agree. |
| AnalysisCache.KeysCollide | backend/main.py:275 | Moving an ASCII byte from the content's end to the model id's front keeps the key. |
| AnalysisCache.AnalyseCv | backend/main.py:253-308 | An unsupported name is a 400 and a hit answers from the cache. A miss stores a success under the key, and any failure is a 500 that leaves the cache unchanged. |
| AnalysisCache.EntriesPersist | backend/main.py:278-299 | The cache only grows, and no stored entry ever changes. |
| AnalysisCache.SuccessIsCached | backend/main.py:299 | After a success the answer is stored under the request's key, and no other key is added. |
| AnalysisCache.HitIgnoresBackend | backend/main.py:278-280 | A hit consults neither extractors nor AI, whatever the job description. |
| AnalysisCache.StaleJobDescription | backend/main.py:275-280 | After a success, the same file and model with another job description get the first answer back. |
| AnalysisCache.FailureNotCached | backend/main.py:304-308 | A failed call leaves the cache as it was. |
| AnalysisCache.ClearCache | backend/main.py:73-79 | The cache is emptied, and the message reads back the number of entries it held. |
| AnalysisCache.ClearedCacheMisses | backend/main.py:73-79 | After a clear, every supported request is analysed afresh by the miss path of lines 278-308. |
| BatchEndpoint.EntryFor | backend/main.py:95-123 | No entry for an unknown extension. Otherwise the entry carries the file name and either the analysis or the error. |
| BatchEndpoint.BatchAnalyse | backend/main.py:81-125 | More than ten files is a 400, and nothing else is. Otherwise the results are the entries of the files in order, and `total` is their count. |
| BatchEndpoint.EntriesAppend | backend/main.py:95-123 | The entries of a list extended by one file are the old entries followed by that file's. |
| BatchEndpoint.OneEntryPerKeptFile | backend/main.py:95-123 | Exactly one entry per kept file, in the same order. |
| BatchEndpoint.BatchKeepsKnownFormats | backend/main.py:101-108 | The kept files are exactly those with a known extension, and entry i carries the name of kept file i. |
| BatchEndpoint.UnsupportedModelFailsEveryFile | backend/main.py:111-123 | With an unsupported model (the 400 of lines 406-408), every entry is an error. |
| ExcelExport.ExportRow | backend/main.py:161-174 | Eleven cells, numbers exactly in the score columns. An analysed entry's row holds, column by column, name, email, phone, the five scores, the skills and red flags joined with `, `, and the salary range. An errored entry is blank with zero scores. |
| ExcelExport.Row | backend/main.py:164-174 | One analysis's row holds each exported field in its column, with numbers exactly in the score columns. |
| ExcelExport.ExportRowDeterminesFields | backend/main.py:161-174 | Two analysed entries with equal rows agree on every exported field, the lists as joined text. |
| ExcelExport.ListCellAmbiguous | backend/main.py:172-173 | One skill containing `, ` fills the same cell as the two skills on either side of it. |
| ExcelExport.Sheet | backend/main.py:143-174 | A header row of the eleven titles, then one row per result, in the order received. |
| ExcelExport.ExportMatchesTable | backend/main.py:161-174 | The export and the table row agree on the overall score and a present name. The table's shown skills are the start of the skills cell, and a clean row has an empty flags cell. |
| ExcelExport.JoinEmpty | backend/main.py:172-173 | A joined list cell is empty exactly for no entries or one empty entry. |
| ExcelExport.Width | backend/main.py:186 | Each width is between 2 and 50. |
| ExcelExport.WidthFits | backend/main.py:177-187 | Below the cap every value fits with two spare characters, and the longest fills its column exactly. |
| ExcelExport.MaxOfBounds | backend/main.py:178-185 | The running maximum of the inner loop bounds every length it has seen and equals one of them. |
| ExcelExport.ColumnMaxBounds | backend/main.py:178-185 | The longest `str()` of a column bounds every cell and is attained by one. |
| ExcelExport.Longest | backend/main.py:178-185 | The inner loop computes the column maximum. |
| ExcelExport.ColumnWidths | backend/main.py:177-187 | The outer loop gives every column its width. |
| ExcelExport.HeaderFits | backend/main.py:143-187 | Every column is at least as wide as its header plus 2, unless capped at 50. |
| Text.SplitJoin | frontend/lib/translations.ts:203 | Splitting a join of separator-free parts gives back the parts. |
| Text.JoinSplit | frontend/lib/translations.ts:203 | Joining a split gives back the text. |
| Text.TrimIdempotent | frontend/components/SkillBadge.tsx:102 | Trimming twice is the same as once. |
| Text.IntToStringRoundTrip | backend/main.py:79 | The decimal text of an integer parses back to it. |
| Text.Utf8Append | backend/main.py:275 | The UTF-8 encoding of a concatenation is the concatenation of the encodings. |
| Text.Utf8Injective | backend/main.py:275 | Two strings with the same UTF-8 encoding are equal. |
| Text.Utf16LengthAppend | frontend/components/SkillBadge.tsx:114 | JavaScript string length adds up over concatenation. |

## Findings

| source | as written | input that shows it | evidently intended | confidence | as-written member | corrected member |
|---|---|---|---|---|---|---|
| frontend/components/ResultSection.tsx:60-69 | The headline numbers' `className` is a plain quoted string containing `${getScoreColor(...)}`. It is never interpolated, so the literal text becomes the class. | Overall score 90 and overall score 10 get the identical class, and neither ends in a colour class. | A template literal, so the overall score and match rate are coloured by their band like the breakdown readings at line 88. | high; not executed | ResultSection.HeadlineClassAsWritten (exhibited by ResultSection.HeadlineColourIgnored) | ResultSection.HeadlineClass (proved by ResultSection.HeadlineFollowsBand; `ResultSection.ScoringPanel` keeps the class as written) |

## Left out

- HTTP transport, request bodies, headers and timeouts. Each provider's
  exchange is one `Services.post` result: status, reason, the error body as
  far as `.get` looks into it (`AiRouting.ErrorBody`), and the reply text.
  The JSON paths into a 200 reply (`candidates[0]…`, `content[0].text`,
  `choices[0].message.content`) are folded into that reply text, so a reply
  missing them, a `KeyError` or `IndexError` in the source, is not modelled.
- `json.loads` and the pydantic `CVAnalysisResponse` constructor are
  parameters (`Services.loads`, `Services.build`). Pydantic validation and
  defaults are not modelled.
- AiReply.Normalise: the parsed reply is taken to be a JSON object. A reply
  that parses to a list or a scalar fails on `.get` in the source; that
  `AttributeError` is not modelled. The values of an entry are their `str()`
  text, so a number or `null` inside an entry is not told apart from its text.
- AiRouting.Fetch: a non-200 body that is not JSON is assumed to raise a
  `requests` exception, as `requests` 2.27 and later do (their
  `JSONDecodeError` is a `RequestException`). With an older `requests` it
  would escape as a plain decode error.
- PDF and DOCX extraction (PyPDF2, python-docx) and `bytes.decode('utf-8')`
  are parameters (`Extraction.Extractors`). Their own behaviour is
  foreign code.
- MD5 in the cache key: the key is the hashed bytes themselves. Hash
  collisions are not modelled, and `AnalysisCache.KeysCollide` shows the
  collision that plain concatenation already allows.
- `AnalysisCache.AnalyseCv` and `BatchEndpoint.BatchAnalyse`: `str(e)` text
  of exceptions is not reproduced. Failures are a structured value (status
  and nested reason), so the message strings around them are not
  character-exact.
- The wording of the two prompt templates is a parameter
  (`AiRouting.Templates`). Only the structure around the job description
  and the CV is modelled.
- AiRouting.Fetch (Gemini): the reason of `raise_for_status` is the
  `Exchange.reason` text, not the full `requests` message.
- `ExcelExport`: openpyxl styling, the workbook file, and the
  `StreamingResponse` are left out. So is the 500 `Lỗi export Excel` wrapper
  (`Analysis.ExportFailed` exists but no modelled step raises it). Illegal
  characters and the 32 767-character cell limit inside openpyxl are also
  left out.
- `ExcelExport.ExportMatchesTable`: the red-flag agreement is one direction
  only. A list holding one empty flag gives an empty cell but a flagged table
  row.
- The `/`, `/models` and `/cache/stats` endpoints: informational and static.
  The `/models` ids appear only in `AiRouting.OfferedModelsRoute`.
- Floating point: scores are integers, as the pydantic model declares them.
- Case folding (`toLowerCase`, `toUpperCase`) is ASCII only. Other letters
  keep their case.
- `charAt(0)` is modelled as the first code point. A name starting outside
  the Basic Multilingual Plane would show half a surrogate pair in the
  browser.
- JavaScript inherited properties (`constructor`, `toString`, a string's
  `length`) reached through a dotted key are not modelled. The tables hold
  only their own keys.
- Translations.Translate: a key that goes one segment past a string leaf is
  not modelled. `Translations.Child` gives nothing below a leaf. In the
  browser `value?.[k]` on a string gives its UTF-16 unit at index `k`
  (`title.0` is the title's first character) or its `length`.
- SkillBadge.IconIn: a skill named `constructor` or `toString` finds the
  inherited `Object.prototype` function, not the wrench; the icon table is
  modelled with its own keys only.
- Translations.ParamText: a param is a string, a safe integer (magnitude
  below 2^53), `NaN`, a boolean, `null`, `undefined` or a plain object.
  Fractions, integers beyond the safe range, `Infinity`, arrays and objects
  with their own `toString` are not modelled. `String` gives those their
  JavaScript number text (`1.5`, `1e+21`) or their own conversion.
- Translations.ParamText: a placeholder named `constructor` or `toString`
  with no such param finds the inherited function, which is truthy, so its
  source text is substituted rather than the empty string.
- Rendering: markup, animation, dark mode, button disabled states, and the
  table's visibility condition on the batch page. The single-analysis page
  (`frontend/app/page.tsx`) and the remaining components (upload,
  model selector, language toggle, backgrounds) hold no modelled logic.
- Concurrency: the cache is a value threaded through calls. The model has
  no simultaneous requests on the shared dictionary.
