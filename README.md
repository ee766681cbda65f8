# AI Resume Analysis, modelled in Dafny

AI Resume Analysis is a React web application. A user uploads a résumé as a
PDF, optionally with a job description. The application turns the first page
into an image, asks a hosted AI model for structured feedback, and stores the
record in a key-value store. It then shows the feedback with score badges,
suggests job postings, answers questions about the résumé in a chat, and
writes cover letters. Administrators keep a list of job postings. This
project models the logic under the user interface, and proves what that
logic promises.

One Dafny module per source file:

- `Wrappers`: `Option` and `Result`.
- `Text`: the JavaScript string operations the sources use, as functions with
  contracts. It covers the `\s` whitespace set, `trim`, `split`, `indexOf`,
  `replace(/\s+/g, ...)`, number formatting and `||` truthiness.
- `Types` (type/index.d.ts): the records `Resume`, `Feedback`, `Job` and the
  tips, the `resume-<id>` key and the `|| 0` score.
- `Tiers`: the three-band threshold rule shared by the score components.
- `Ats`, `Details`, `Summary`, `ScoreBadge`, `JobMatchAnalysis`
  (components/resume/ATS.tsx, Details.tsx, Summary.tsx,
  components/ui/ScoreBadge.tsx, components/JobMatchAnalysis.tsx): the score
  colours, labels, icons and visible sections. `Details` also models the
  open/closed section map.
- `Accordion` (components/ui/Accordion.tsx): the list of open items, as a
  class, in single and multiple mode.
- `AiResponse` (lib/utils.ts and the reply-content normalisation): the
  parsing of AI replies.
- `Ingestion`, `MatchJd`, `AnalyzeCv` (routes/match-jd.tsx,
  routes/analyze-cv.tsx): the upload–convert–store–analyse–store–navigate
  pipelines. `Ingestion` is a trace of status texts, store writes and
  navigation. `MatchJd` and `AnalyzeCv` are the page classes whose handlers
  produce that trace.
- `Pdf2Img` (lib/pdf2img.ts): the single-flight loader cache of pdf.js, and
  the shape of the conversion result.
- `JobsApi` (lib/jobs-api.ts): the mapping from the job-search service's
  records to `ExternalJob`, and the outcomes of the two fetches.
- `JobSuggestion`, `UseJobSuggestions`, `ResumePage` (the selection rule
  shared by hooks/useJobSuggestions.ts and routes/resume.tsx, the hook's
  state, and the review page): the job suggestions, the record key and the
  panels the page shows.
- `Stats`, `Home`, `Profile` (routes/home.tsx, routes/profile.tsx): the
  sorting, averages and best scores over stored résumés.
- `Prompts`, `Constants` (lib/prompts.ts, constants/index.ts): the prompt
  templates with their conditional lines, the analysis instructions and the
  sample résumés.
- `Auth` (routes/auth.tsx): the `next=` redirect and the sign-in button.
- `ResumeChat`, `GeneralCoverLetter`, `CoverLetter`
  (components/features/ResumeChat.tsx, GeneralCoverLetterGenerator.tsx,
  CoverLetterGenerator.tsx): the chat log and the two cover-letter
  generators, as classes.
- `AdminJobs` (routes/admin/jobs.tsx): the `job:<id>` keys, the listing and
  the create/delete handlers.
- `Navbar`, `LayoutNavbar` (components/Navbar.tsx,
  components/layout/Navbar.tsx): hide-on-scroll, link highlighting and the
  mobile menu.

Collaborators are modelled by their outcomes. The file store, the key-value
store, the AI service, sign-in, pdf.js and `fetch` are each parameters of the
handler that awaits them, or the value that handler receives. `JSON.parse` is
a parameter in one of two forms. In `AiResponse`, `Ingestion`,
`JobSuggestion`, `UseJobSuggestions` and `ResumePage` it is
`string -> Result<T>`, and `Err(m)` means it throws with message `m`. In
`Stats`, `Home`, `Profile` and `AdminJobs`, whose callers catch a throw and
only log it, it is `string -> Option<T>`, and `None` means it throws.
Handlers that await in the middle are split into two methods, one before the
await and one after it.

## Model

| member | source | states |
|---|---|---|
| Tiers.TierOf | app/components/resume/ATS.tsx:12-31 | the three-tier test every score component uses: top tier exactly from the upper threshold, bottom tier exactly below the lower one |
| Tiers.TierMonotone | app/components/ui/ScoreBadge.tsx:9-17 | a higher score never lands in a lower tier, whatever the thresholds |
| Ats.Status | app/components/resume/ATS.tsx:12-31 | `getATSStatus`: friendly from 80, needs optimisation from 60, otherwise not friendly |
| Ats.BarColor | app/components/resume/ATS.tsx:59-63 | the progress bar's colour on the same 80/60 tiers |
| Ats.BarMatchesStatus | app/components/resume/ATS.tsx:12-63 | the bar is green exactly when the status is friendly and red exactly when it is not friendly |
| Ats.SuggestionsHeading | app/components/resume/ATS.tsx:71 | the heading reads "Suggestions" exactly when there is at least one tip |
| Ats.HeadingMatchesList | app/components/resume/ATS.tsx:71-97 | the heading announces suggestions exactly when the tips, not the placeholder, are shown |
| Ats.TipIcon | app/components/resume/ATS.tsx:85 | the check-mark icon for a `good` tip, the warning icon for any other kind |
| Details.ScoreColor | app/components/resume/Details.tsx:33-37 | `getScoreColor`: green from 80, yellow from 60, red below |
| Details.ScoreBgColor | app/components/resume/Details.tsx:39-43 | `getScoreBgColor`: the bar colour on the same tiers |
| Details.BarLikeAtsBar | app/components/resume/Details.tsx:39-43 | a section's bar has the colour the ATS bar (ATS.tsx:59-63) gives the same score |
| Details.TextMatchesBar | app/components/resume/Details.tsx:33-43 | a section's score text and its bar always show the same tier: green with green, red with red |
| Details.AllSetTo | app/components/resume/Details.tsx:144-149 | the four sections, each set to the same value |
| Details.ToggleAllLabel | app/components/resume/Details.tsx:153 | "Collapse All" exactly when every section is open |
| Details.ToggleAllFlipsLabel | app/components/resume/Details.tsx:142-153 | after the expand/collapse-all button the label offers the opposite action |
| Details.InitiallyPartlyOpen | app/components/resume/Details.tsx:123-128 | initially only tone and style is open, so the button offers to expand |
| Details.DetailsState.constructor | app/components/resume/Details.tsx:123-128 | the initial open-sections map |
| Details.DetailsState.ToggleSection | app/components/resume/Details.tsx:130-135 | the toggled section flips, a missing one reading as closed; every other section is unchanged |
| Details.DetailsState.ToggleAll | app/components/resume/Details.tsx:142-149 | all four closed when all were open, otherwise all four open |
| Summary.ColorsFor | app/components/resume/Summary.tsx:7-22 | text, background and bar colours of a category on the 75/50 tiers |
| Summary.ColorsMatchBadge | app/components/resume/Summary.tsx:7-22 | a category's bar is green exactly when its badge says Excellent and red exactly when it says Needs Improvement |
| Summary.AtsScore | app/components/resume/Summary.tsx:47 | `feedback.ATS?.score \|\| 0`: 0 when the ATS section is absent |
| Summary.Categories | app/components/resume/Summary.tsx:47-51 | the five categories with their titles and scores, in display order |
| ScoreBadge.BadgeFor | app/components/ui/ScoreBadge.tsx:9-18 | Excellent from 75, Good from 50, otherwise Needs Improvement, with the matching colour |
| ScoreBadge.BadgeMonotone | app/components/ui/ScoreBadge.tsx:9-18 | a higher score never gets a lesser badge |
| Accordion.InitialItems | app/components/ui/Accordion.tsx:37-39 | the default item alone when it is truthy, nothing otherwise |
| Accordion.Without | app/components/ui/Accordion.tsx:45 | `filter(item !== id)`: exactly the other items, no longer, unchanged when the item is absent; with `WithoutAppend` and `WithoutSingleton` it is pinned as the order-keeping filter |
| Accordion.WithoutAppend | app/components/ui/Accordion.tsx:45 | removing from a concatenation removes from each part, so the other items keep their order and their repeats |
| Accordion.WithoutSingleton | app/components/ui/Accordion.tsx:45 | one item is kept exactly when it is not the one removed |
| Accordion.WithoutDistinct | app/components/ui/Accordion.tsx:45 | filtering keeps a list free of duplicates |
| Accordion.Toggled | app/components/ui/Accordion.tsx:41-51 | reference definition, no contract of its own: the list `toggleItem` computes in each mode; `ToggleFlips`, `ToggleMultipleKeepsOthers` and `ToggleSingleKeepsOne` state it |
| Accordion.ToggleFlips | app/components/ui/Accordion.tsx:41-51 | in either mode the clicked item is open afterwards exactly when it was closed before |
| Accordion.ToggleMultipleKeepsOthers | app/components/ui/Accordion.tsx:43-46 | in multiple mode no other item opens or closes, and an opened item goes last |
| Accordion.ToggleSingleKeepsOne | app/components/ui/Accordion.tsx:47-49 | in single mode at most the clicked item is open afterwards |
| Accordion.AccordionState.constructor | app/components/ui/Accordion.tsx:37-39 | the initial items; no duplicates, and at most one in single mode |
| Accordion.AccordionState.ToggleItem | app/components/ui/Accordion.tsx:41-51 | the new list is the toggled one, and the invariant is kept |
| JobMatchAnalysis.MatchScoreColor | app/components/JobMatchAnalysis.tsx:32-37 | grey for a missing or zero score (`!score`), otherwise the 80/60 tiers |
| JobMatchAnalysis.MatchScoreBg | app/components/JobMatchAnalysis.tsx:39-44 | the background on the same rule |
| JobMatchAnalysis.BgMatchesColor | app/components/JobMatchAnalysis.tsx:32-44 | the match score's text and its background always show the same tier, grey included |
| JobMatchAnalysis.ImportanceColor | app/components/JobMatchAnalysis.tsx:46-53 | one colour per known importance, grey for any other text |
| JobMatchAnalysis.LevelOf | app/components/JobMatchAnalysis.tsx:55-63 | a match level falls back to the default exactly when it is none of the four known ones |
| JobMatchAnalysis.MatchLevelIcon | app/components/JobMatchAnalysis.tsx:55-63 | `excellent`, `good`, `partial` and `none` get 🎯, ✅, ⚠️ and ❌; any other text gets `•` |
| JobMatchAnalysis.MatchLevelColor | app/components/JobMatchAnalysis.tsx:65-73 | the four levels get the green, blue, yellow and red class sets; any other text gets the grey one |
| JobMatchAnalysis.IconsDistinct | app/components/JobMatchAnalysis.tsx:55-63 | texts of different levels get different icons |
| JobMatchAnalysis.ColorsDistinct | app/components/JobMatchAnalysis.tsx:65-73 | texts of different levels get different colour sets |
| JobMatchAnalysis.IconAgreesWithColor | app/components/JobMatchAnalysis.tsx:181-187 | two items show the same icon exactly when they show the same colours |
| JobMatchAnalysis.FallbackIconOnlyForOthers | app/components/JobMatchAnalysis.tsx:55-63 | the bullet icon appears exactly for unknown levels |
| JobMatchAnalysis.VisibleParts | app/components/JobMatchAnalysis.tsx:83-205 | which blocks render: the score badge iff a score is given, the position iff a title is non-empty, the company exactly with the position and a truthy company name, each list iff non-empty, next steps iff skills are missing |
| JobMatchAnalysis.ZeroScoreShownGrey | app/components/JobMatchAnalysis.tsx:32-44 | a score of 0 still shows its badge, in grey |
| Types.OverallScore | app/routes/home.tsx:50 | `feedback?.overallScore \|\| 0`: 0 for a record whose feedback is still the empty placeholder |
| Types.ResumeKey | app/routes/match-jd.tsx:54 | `` `resume-${uuid}` ``: the prefix followed by the identifier |
| Types.ResumeKeyInjective | app/routes/match-jd.tsx:54 | two analyses with different identifiers never write the same key |
| Stats.ParseAll | app/routes/home.tsx:46-47 | the records, one per listed value, exactly when every value parses |
| Stats.Scores | app/routes/home.tsx:73 | one score per record, in order |
| Stats.ScoresOfPermutation | app/routes/home.tsx:48-51 | reordering the records reorders their scores and nothing more |
| Stats.RoundedMean | app/routes/home.tsx:68 | `Math.round(total / n)`: within half a point of the exact mean, halves rounded up |
| Stats.Max | app/routes/home.tsx:73 | `Math.max(...xs)`: an element at least as large as every element |
| Stats.SumBounds | app/routes/home.tsx:67 | a sum of values between two bounds lies between count times each bound |
| Stats.MeanWithin | app/routes/home.tsx:67-68 | the rounded mean of values between two integer bounds lies between them |
| Stats.RoundedMeanWithin | app/routes/home.tsx:68 | rounding keeps a mean inside integer bounds |
| Stats.SumOfPermutation | app/routes/home.tsx:48-51 | the total does not depend on the order |
| Home.Insert | app/routes/home.tsx:48-51 | inserting a record into a list sorted by descending score keeps it sorted and adds exactly that record |
| Home.SortByScore | app/routes/home.tsx:48-51 | the sort's result is ordered by descending score and is a permutation of the records |
| Home.InsertStable | app/routes/home.tsx:48-51 | insertion keeps the order of the records of each score |
| Home.SortIsStable | app/routes/home.tsx:48-51 | like `Array.prototype.sort`, the sort is stable: records with equal scores keep their listed order |
| Home.AverageScore | app/routes/home.tsx:65-69 | 0 with no records, otherwise the rounded mean of the scores |
| Home.BestScore | app/routes/home.tsx:71-74 | 0 with no records, otherwise a record's score that no record exceeds |
| Home.AverageWithinScores | app/routes/home.tsx:65-69 | the average lies between any bounds of the scores |
| Home.AverageAtMostBest | app/routes/home.tsx:65-74 | the average is never above the best score |
| Home.SortKeepsFigures | app/routes/home.tsx:48-74 | sorting changes neither figure, and the first record shown has the best score |
| Home.Listed | app/routes/home.tsx:45-47 | nothing when the listing throws, otherwise the parse of every value |
| Home.SignInRedirect | app/routes/home.tsx:37-39 | to `/auth?next=/` exactly when signed out, and that URL returns to `/` |
| Home.OneViewAtATime | app/routes/home.tsx:86-116 | exactly one of the statistics, the skeletons and the empty state is shown |
| Home.HomePage.constructor | app/routes/home.tsx:34-35 | no records, loading |
| Home.HomePage.LoadResumes | app/routes/home.tsx:42-60 | loading ends either way; the list is replaced by the sorted records when listing and parsing succeed, kept otherwise |
| Profile.Positive | app/routes/profile.tsx:54 | `filter(s => s > 0)`: only positive scores, each of them kept |
| Profile.PositiveAppend | app/routes/profile.tsx:54 | the positives of a concatenation are those of each part, in order; with PositiveSingleton this fixes the result, repeats and count included |
| Profile.PositiveSingleton | app/routes/profile.tsx:54 | one score is kept exactly when it is positive |
| Profile.StatsOf | app/routes/profile.tsx:56-62 | total count, rounded mean and maximum of the positive scores (0 when none), the date given, trend 5 exactly when there are two or more records |
| Profile.FiguresOrdered | app/routes/profile.tsx:54-59 | with a positive score, 1 <= average <= best |
| Profile.UnscoredOnlyCounts | app/routes/profile.tsx:54-61 | an unscored record changes the total and not the average or the best |
| Profile.Loaded | app/routes/profile.tsx:49-65 | the stats are kept when the listing throws, is empty or a value does not parse, and computed from the records otherwise |
| Profile.SignInRedirect | app/routes/profile.tsx:37-41 | to `/auth?next=/profile` exactly when loading is over and the user is signed out, and that URL returns to `/profile` |
| Profile.ProfilePage.constructor | app/routes/profile.tsx:27-35 | the initial stats, loading |
| Profile.ProfilePage.Load | app/routes/profile.tsx:45-69 | nothing when signed out; otherwise the loaded stats and loading over |
| AiResponse.ContentText | app/routes/match-jd.tsx:64 | a string reply is its own text; a list reply gives its first part's text when that is truthy, and `""` otherwise |
| AiResponse.ObjectMatch | app/lib/utils.ts:32 | `/\{[\s\S]*\}/`: no match exactly when no `{` comes before a `}`; a match starts at the first `{`, ends at the last `}`, and is a slice of the text |
| AiResponse.ParseAIResponse | app/lib/utils.ts:25-44 | the direct parse when it succeeds; otherwise the parse of the matched braces when there is a match and it parses; null in every other case |
| AiResponse.ObjectMatchOfWrapped | app/lib/utils.ts:32 | an object wrapped in text with no `{` before it and no `}` after it is matched exactly |
| AiResponse.ParseRecoversWrapped | app/lib/utils.ts:25-44 | a reply that does not parse as a whole but wraps a parsable object gives that object |
| AiResponse.FencedReply | app/lib/utils.ts:30-35 | a reply in a json code fence matches its object |
| Auth.LocationSearch | app/routes/auth.tsx:15 | `location.search`: empty or a `?` with at least one more character, taken from the URL |
| Auth.NextParam | app/routes/auth.tsx:15 | `split('next=')[1]`: absent exactly when there is no `next=`; otherwise the text after the first `next=`, up to the next `next=` or the end, holding none itself |
| Auth.RedirectTarget | app/routes/auth.tsx:25 | `next \|\| '/'`: the parameter when it is non-empty, `/` otherwise; never empty |
| Auth.Navigation | app/routes/auth.tsx:24-26 | a navigation exactly when signed in, to the redirect target |
| Auth.RedirectToNext | app/routes/auth.tsx:15-25 | `?next=<path>` for a non-empty path without `=` sends the user to that path |
| Auth.LoginUrl | app/routes/home.tsx:38 | reference definition, no contract of its own: `/auth?next=<path>`, the link the pages send a signed-out user to; `SearchOfLoginUrl` and `LoginReturnsTo` state the round trip |
| Auth.SearchOfLoginUrl | app/routes/auth.tsx:15 | the query string of `/auth?next=<path>` is `?next=<path>` |
| Auth.LoginReturnsTo | app/routes/auth.tsx:15-25 | the round trip: a page that sends the user to `/auth?next=<path>` gets them back to `<path>` after signing in |
| Auth.ButtonAction | app/routes/auth.tsx:61-81 | nothing exactly while loading; otherwise sign out exactly when signed in, else sign in |
| Constants.PrepareInstructions | app/constants/index.ts:164-230 | reference definition, no contract of its own: the job-match instructions with the title and the description interpolated; `InstructionsHoldTitle`, `InstructionsHoldDescription` and `InstructionsHoldFormat` state what they hold |
| Constants.InstructionsHoldTitle | app/constants/index.ts:175 | the job-match instructions hold the job title verbatim, right after their fixed opening |
| Constants.InstructionsHoldDescription | app/constants/index.ts:177-180 | they hold the job description verbatim |
| Constants.InstructionsHoldFormat | app/constants/index.ts:213-214 | they embed the response format |
| Constants.PrepareGeneralInstructions | app/constants/index.ts:233-249 | reference definition, no contract of its own: the general instructions, with no input; `GeneralInstructionsHoldFormat` and `Ingestion.GeneralInstructionsIgnoreInput` state them |
| Constants.GeneralInstructionsHoldFormat | app/constants/index.ts:248 | the general instructions embed the same response format |
| Constants.SampleResumesFacts | app/constants/index.ts:1-92 | three sample records with distinct ids "1", "2", "3" and overall scores 85, 55 and 75 |
| Pdf2Img.Step | app/lib/pdf2img.ts:21-47 | one call of `loadPdfJs`: the cached library once loaded, the stored promise while one exists, a throw outside a browser, otherwise a new import; the import's `then` caches the library |
| Pdf2Img.Run | app/lib/pdf2img.ts:21-47 | one outcome per event |
| Pdf2Img.AtMostOneImport | app/lib/pdf2img.ts:17-47 | however many calls, `import()` starts at most once, and never again once a promise is stored |
| Pdf2Img.LoadedStaysCached | app/lib/pdf2img.ts:22-25 | once loaded, the loader stays loaded and every call returns the cached library |
| Pdf2Img.PdfJsLoader.constructor | app/lib/pdf2img.ts:14-15 | both module variables `null` |
| Pdf2Img.PdfJsLoader.LoadPdfJs | app/lib/pdf2img.ts:21-47 | the new state and the outcome are those of `Step`; only a new import changes the variables |
| Pdf2Img.PdfJsLoader.ImportSettles | app/lib/pdf2img.ts:38-44 | the state after the import settles is that of `Step` |
| Pdf2Img.Failure | app/lib/pdf2img.ts:103-109 | the caught error: empty URL, no file, the message after `Failed to convert PDF: ` |
| Pdf2Img.ConvertPdfToImage | app/lib/pdf2img.ts:52-111 | a file exactly when there is no error; on success `resume-preview.png` of type `image/png` with the object URL of its blob; on failure an empty URL and a prefixed message; a missing 2D context always fails |
| Pdf2Img.PreviewIsFirstPageAtScaleTwo | app/lib/pdf2img.ts:66-91 | a produced preview is the blob of page 1, rendered at scale 2 on a canvas of the viewport's size |
| Pdf2Img.OnlyFirstPageUsed | app/lib/pdf2img.ts:66 | documents that agree on their first page convert identically |
| Prompts.JobSuggestionPrompt | app/lib/prompts.ts:1-14 | reference definition, no contract of its own: the job-suggestion template with the skills and the jobs' JSON interpolated; `JobSuggestionPromptEmbeds` states what it holds |
| Prompts.JobSuggestionPromptEmbeds | app/lib/prompts.ts:1-14 | the job-suggestion prompt holds the candidate's skills and the jobs' JSON verbatim |
| Prompts.CoverLetterPrompt | app/lib/prompts.ts:30-93 | reference definition, no contract of its own: the cover-letter template with its optional lines; `CoverLetterPromptIsBody` and the `…Line`/`…Section` lemmas below state when each line appears |
| Prompts.CoverLetterPromptIsBody | app/lib/prompts.ts:30-93 | the final `.trim()` removes nothing: the prompt is exactly its fixed texts and inserted lines, in order |
| Prompts.CurrentRoleLine | app/lib/prompts.ts:39 | the 'Current Role' line appears exactly when the current title is non-empty; otherwise the prompt is the same text without it |
| Prompts.JobDescriptionLine | app/lib/prompts.ts:44 | the job-description line appears exactly when the description is non-empty |
| Prompts.MatchScoreLine | app/lib/prompts.ts:47 | the match-score line appears exactly when the score is truthy |
| Prompts.ZeroMatchScoreOmitted | app/lib/prompts.ts:47 | a match score of 0 is falsy: the prompt is the one with no score |
| Prompts.MissingSkillsSection | app/lib/prompts.ts:52 | the areas-to-improve section appears exactly when the missing skills are non-empty |
| Prompts.OverallFitLine | app/lib/prompts.ts:54 | the overall-fit line appears exactly when the assessment is truthy |
| Prompts.ResumeChatPrompt | app/lib/prompts.ts:95-120 | reference definition, no contract of its own: the chat template with the context, the optional résumé text and the question; `ChatPromptIsBody`, `ChatPromptEmbeds` and `ResumeTextSection` state its content |
| Prompts.ChatPromptIsBody | app/lib/prompts.ts:95-120 | the chat prompt's `.trim()` removes nothing |
| Prompts.ChatPromptEmbeds | app/lib/prompts.ts:106-111 | the chat prompt holds the context and the user's question verbatim |
| Prompts.ResumeTextSection | app/lib/prompts.ts:109 | the résumé-text section appears exactly when the résumé text is non-empty |
| JobsApi.FirstTruthy | app/lib/jobs-api.ts:55-56 | `a \|\| b \|\| d` over optional strings |
| JobsApi.FirstQualification | app/lib/jobs-api.ts:55 | `job_highlights?.Qualifications?.[0]`: the first qualification, absent for a missing or empty list |
| JobsApi.Location | app/lib/jobs-api.ts:52-54 | city and country joined by a comma when both are truthy, otherwise the country, otherwise Remote |
| JobsApi.MapJob | app/lib/jobs-api.ts:48-59 | every field of the mapped job from its raw member or its default; the id falls back to `job-<index>`; the date to the given current time |
| JobsApi.MapFrom | app/lib/jobs-api.ts:48 | the mapping of a suffix, each job with its own index |
| JobsApi.MapJobs | app/lib/jobs-api.ts:48-59 | `(result.data \|\| []).map(...)`: nothing without data, otherwise one mapped job per raw job, with its index |
| JobsApi.PlaceholderIdsDistinct | app/lib/jobs-api.ts:49 | two jobs without an id get different placeholder ids |
| JobsApi.FetchJobsFromRapidApi | app/lib/jobs-api.ts:18-66 | a missing key throws its message; a thrown fetch is rethrown; a non-ok response throws with status and status text; a failing `json()` is rethrown; the result is `Ok` exactly when the response is ok and its body parses, and is then the mapped data |
| JobsApi.MissingKeyMakesNoRequest | app/lib/jobs-api.ts:22-26 | without a key the outcome does not depend on any response: no request is made |
| JobsApi.FetchJobs | app/lib/jobs-api.ts:71-80 | a non-ok response throws with its status; a thrown fetch and a failing `json()` are rethrown; an ok one gives `data.jobs \|\| []`; success only with an ok response |
| JobSuggestion.TipTexts | app/hooks/useJobSuggestions.ts:24 | `tips.map(tip => tip.tip)`: one text per tip, in order |
| JobSuggestion.JoinHoldsParts | app/hooks/useJobSuggestions.ts:24 | `join(', ')` holds every joined part |
| JobSuggestion.SkillsText | app/hooks/useJobSuggestions.ts:24 | never empty, and the fixed "no skills" text when there are no tips |
| JobSuggestion.SkillsTextHoldsTips | app/hooks/useJobSuggestions.ts:24 | unless every tip is empty, the skills text holds each tip's text |
| JobSuggestion.FirstSkill | app/hooks/useJobSuggestions.ts:27 | reference definition, no contract of its own: the trimmed first comma-separated segment, or `software`; `FirstSkillShape` states its shape |
| JobSuggestion.FirstSkillShape | app/hooks/useJobSuggestions.ts:27 | the first skill is non-empty, comma-free, without whitespace at either end, and either `software` or a part of the skills text |
| JobSuggestion.SearchQuery | app/hooks/useJobSuggestions.ts:28 | reference definition, no contract of its own: `` `${firstSkill} developer`.trim() ``; `QueryIsSkillAndDeveloper` and `QueryFromFirstTip` state it |
| JobSuggestion.QueryIsSkillAndDeveloper | app/hooks/useJobSuggestions.ts:27-28 | the outer `trim` removes nothing: the query is the first skill followed by " developer" |
| JobSuggestion.QueryFromFirstTip | app/hooks/useJobSuggestions.ts:24-28 | a comma-free, non-blank first tip gives the query "<trimmed tip> developer" |
| JobSuggestion.FirstSegment | app/hooks/useJobSuggestions.ts:27 | `split(',')[0]` of a comma-free text followed by a comma or nothing is that text |
| JobSuggestion.CloseFrom | app/hooks/useJobSuggestions.ts:53 | the first `]` reached without crossing a line terminator, or none when every later `]` lies beyond one |
| JobSuggestion.SpanFrom | app/hooks/useJobSuggestions.ts:53 | the leftmost `[` that has such a `]`, with no earlier match |
| JobSuggestion.BracketMatch | app/hooks/useJobSuggestions.ts:53 | `/\[.*?\]/`: no match exactly when no `[` reaches a `]` on its line; a match runs from `[` to the nearest `]` with no line terminator in between and is a slice of the text |
| JobSuggestion.BracketMatchOfReply | app/hooks/useJobSuggestions.ts:53 | a one-line id array after text with no `[` is matched exactly |
| JobSuggestion.MultiLineArrayNotMatched | app/hooks/useJobSuggestions.ts:53-60 | a pretty-printed array spans several lines, is not matched, and the fallback is taken |
| JobSuggestion.SubsequencePrefix | app/hooks/useJobSuggestions.ts:57 | a prefix of a subsequence is a subsequence |
| JobSuggestion.Take | app/hooks/useJobSuggestions.ts:57 | `slice(0, n)`: the prefix of length `n`, or the whole list when it is shorter |
| JobSuggestion.PrefixIsSubsequence | app/hooks/useJobSuggestions.ts:60 | a prefix is a subsequence |
| JobSuggestion.Filter | app/hooks/useJobSuggestions.ts:56 | a subsequence of the jobs holding exactly the jobs whose id is listed |
| JobSuggestion.FilterAppend | app/hooks/useJobSuggestions.ts:56 | filtering a concatenation filters each part, in order; with FilterSingleton this fixes the result, repeated jobs included |
| JobSuggestion.FilterSingleton | app/hooks/useJobSuggestions.ts:56 | one job is kept exactly when its id is listed |
| JobSuggestion.Select | app/hooks/useJobSuggestions.ts:53-61 | with a match that parses: the first three matches (`slice(0, 3)` of the filtered jobs), so at most three jobs, each with a listed id, in order, all of them when at most three qualify; a match that does not parse is the parse error; with no match, the first three jobs |
| JobSuggestion.SelectionIsSubsequence | app/hooks/useJobSuggestions.ts:53-61 | whatever the reply, a selection is at most three of the jobs in their order |
| JobSuggestion.Answer | app/hooks/useJobSuggestions.ts:43-61 | no reply is the "no response" error; otherwise the selection or its error |
| JobSuggestion.AfterFetch | app/hooks/useJobSuggestions.ts:31-66 | a fetch error is reported; the run ends with no jobs exactly when the fetch found none; otherwise the AI sees the skills and the first ten jobs; a rejected `ai.chat` is the caught error with its message, and a reply is answered by `Answer` over all the jobs |
| JobSuggestion.Suggest | app/hooks/useJobSuggestions.ts:12-61 | nothing happens exactly when there is no feedback; otherwise the run queries with the feedback's skills |
| JobSuggestion.SuggestedFromFetched | app/hooks/useJobSuggestions.ts:31-61 | suggested jobs are at most three of the fetched ones, in their order |
| UseJobSuggestions.AfterRun | app/hooks/useJobSuggestions.ts:12-70 | reference definition, no contract of its own: the hook state a run leaves for each outcome; `RunSettles` states it, and `JobSuggestionsHook.SuggestJobs` is proved against it |
| UseJobSuggestions.RunSettles | app/hooks/useJobSuggestions.ts:12-70 | after a run with feedback nothing is in progress and the error is set exactly on failure; a run adds at most one alert, none on success, and keeps the earlier alerts |
| UseJobSuggestions.JobSuggestionsHook.constructor | app/hooks/useJobSuggestions.ts:8-10 | not suggesting, no jobs, no error |
| UseJobSuggestions.JobSuggestionsHook.Fail | app/hooks/useJobSuggestions.ts:63-66 | the caught error's message is stored and alerted |
| UseJobSuggestions.JobSuggestionsHook.UseReply | app/hooks/useJobSuggestions.ts:44-61 | the new state is the one the reference outcome `Answer` describes |
| UseJobSuggestions.JobSuggestionsHook.SuggestJobs | app/hooks/useJobSuggestions.ts:12-70 | the new state is the one the reference run `Suggest`, with the job-suggestion prompt, leaves |
| ResumePage.PageJobsPrompt | app/routes/resume.tsx:118-133 | reference definition, no contract of its own: the page's inline prompt with the skills and the jobs' JSON; `PageJobsPromptEmbeds` states what it holds |
| ResumePage.PageJobsPromptEmbeds | app/routes/resume.tsx:118-133 | the page's own prompt holds the skills and the jobs' JSON verbatim |
| ResumePage.AuthRedirectAsWritten | app/routes/resume.tsx:37 | reference definition, no contract of its own: the sign-in redirect as the page writes it; `AsWrittenRedirectMissesRoute` shows where it lands |
| ResumePage.AsWrittenRedirectMissesRoute | app/routes/resume.tsx:37 | after signing in, the redirect as written sends the user to `/resume<id>`, which the `/resume/:id` route does not match |
| ResumePage.AuthRedirect | app/routes/resume.tsx:37 | reference definition, no contract of its own: the corrected sign-in redirect with the slash; `RedirectReturnsToRecord` states the round trip |
| ResumePage.RedirectReturnsToRecord | app/routes/resume.tsx:36-38 | the corrected redirect `/auth?next=/resume/<id>` brings the user back to the record's own page |
| ResumePage.ResultPathIsRoute | app/routes/match-jd.tsx:72 | the page an analysis navigates to matches the review route |
| ResumePage.AuthRedirectEffect | app/routes/resume.tsx:36-38 | a redirect exactly once loading is over and the user is signed out, carrying the record's path (corrected form) |
| ResumePage.FeedbackOf | app/routes/resume.tsx:81 | `setFeedback(data.feedback)`: no feedback exactly for a pending record, otherwise the parsed one |
| ResumePage.AfterLoad | app/routes/resume.tsx:42-87 | reference definition, no contract of its own: the state the load effect leaves; `LoadShowsStoredRecord`, `LoadAfterAnalysis` and `LoadAfterAiFailure` state it, and `ResumeView.LoadResume` is proved against it |
| ResumePage.LoadShowsStoredRecord | app/routes/resume.tsx:42-87 | loading leaves the suggestion state alone, shows exactly the record stored under `resume-<id>` and its feedback, and does nothing without an id or a stored record |
| ResumePage.LoadAfterAnalysis | app/routes/resume.tsx:42-87 | after a successful analysis the review page of the new id shows the parsed feedback and the record that run wrote |
| ResumePage.LoadAfterAiFailure | app/routes/resume.tsx:244-255 | when the AI returned nothing, the page finds the provisional record and keeps showing the analysing placeholder |
| ResumePage.AfterSuggest | app/routes/resume.tsx:91-162 | reference definition, no contract of its own: the state `handleSuggestJobs` leaves for each outcome; `SuggestTouchesOnlySuggestions` states it, and `ResumeView.HandleSuggestJobs` is proved against it |
| ResumePage.SuggestTouchesOnlySuggestions | app/routes/resume.tsx:91-162 | a suggestion run changes only the suggestion state and the alerts, always ends not in progress when there was feedback, and only alerts without it |
| ResumePage.SuggestButtonLabel | app/routes/resume.tsx:189 | the searching label exactly while a run is in flight |
| ResumePage.PanelOrBanner | app/routes/resume.tsx:181-267 | exactly one of the suggestion panel and the job banner is shown |
| ResumePage.PanelFollowsVariant | app/routes/resume.tsx:181-267 | a record from the general analysis offers suggestions, one from the job-match analysis with a title shows the banner; until feedback arrives the button is disabled |
| ResumePage.EnabledButtonRuns | app/routes/resume.tsx:186 | an enabled button means a click starts a run (`feedback` present) |
| ResumePage.ResumeView.constructor | app/routes/resume.tsx:22-33 | every state variable empty |
| ResumePage.ResumeView.LoadResume | app/routes/resume.tsx:42-87 | the new state is the reference `AfterLoad`: the record, each readable file's URL, the feedback |
| ResumePage.ResumeView.UseReply | app/routes/resume.tsx:136-158 | the new state is the one the reference outcome `Answer` describes, the error shown only as an alert |
| ResumePage.ResumeView.HandleSuggestJobs | app/routes/resume.tsx:91-162 | the new state is the one the reference run `Suggest`, with the page's prompt, leaves |
| Ingestion.UploadEffects | app/routes/match-jd.tsx:25-40 | reference definition, no contract of its own: the effects of the PDF upload, the conversion and the image upload, one per statement, ending with the failure status at the first step that fails; `UploadedEffects` and the three `…FailureHalts` lemmas state them |
| Ingestion.Analysis | app/routes/match-jd.tsx:24-74 | reference definition, no contract of its own: one run of `handleAnalyze` as its effects in source order and how it ends (halted, thrown or navigated); the `Ingestion` lemmas below and the page methods of `AnalyzeCv` and `MatchJd` are stated against it |
| Ingestion.Provisional | app/routes/match-jd.tsx:45-53 | the record written before the AI call: the new id, both uploaded paths and an empty feedback; the job-match page stores company, title and description, the general page none of them |
| Ingestion.InstructionsFor | app/routes/match-jd.tsx:57-60 | the general page sends the general instructions exactly, the job-match page the instructions built from its title and description |
| Ingestion.Store | app/routes/match-jd.tsx:54-67 | reference definition, no contract of its own: the key-value store after a list of effects, each `kv.set` overwriting its key; `StoreSkips` and `StoreAppend` state its properties |
| Ingestion.StoreSkips | app/routes/match-jd.tsx:54 | effects without a `kv.set` leave the store as it is |
| Ingestion.StoreAppend | app/routes/match-jd.tsx:54-67 | the store after two runs of effects is the second applied after the first |
| Ingestion.UploadFailureHalts | app/routes/match-jd.tsx:28-29 | a failed PDF upload halts with its status; no conversion, store write or AI call follows |
| Ingestion.ConversionFailureHalts | app/routes/match-jd.tsx:31-34 | a conversion without a file halts with its status, before any image upload or store write |
| Ingestion.ImageUploadFailureHalts | app/routes/match-jd.tsx:38-40 | a failed image upload halts with its status and the store is untouched |
| Ingestion.UploadedEffects | app/routes/match-jd.tsx:25-40 | past the uploads, the first six effects in order |
| Ingestion.ProvisionalOf | app/routes/match-jd.tsx:45-53 | reference definition, no contract of its own: the provisional record of a run that got past the uploads, as `Provisional` builds it; `StoreOfUploadedPrefix` and `SuccessRewritesFeedbackOnly` say where it is stored and what replaces it |
| Ingestion.ProvisionalWriteBeforeAi | app/routes/match-jd.tsx:42-60 | the provisional record is written under `resume-<uuid>` before the AI is called, and the AI gets the PDF's path with the variant's instructions |
| Ingestion.StoreOfUploadedPrefix | app/routes/match-jd.tsx:42-60 | through the AI call the store has received exactly the provisional record |
| Ingestion.AiFailureKeepsProvisional | app/routes/match-jd.tsx:62 | when the AI returns nothing the run halts with its status and the store keeps the provisional record |
| Ingestion.ParseFailureKeepsProvisional | app/routes/match-jd.tsx:64-66 | when `JSON.parse` throws, the run ends with that exception, the store keeps the provisional record and there is no navigation |
| Ingestion.SuccessEffects | app/routes/match-jd.tsx:62-72 | a successful run: the prefix through the AI call, then the final write, status and navigation |
| Ingestion.SuccessRewritesFeedbackOnly | app/routes/match-jd.tsx:66-67 | on success the same key is rewritten with only the feedback replaced by the parsed reply |
| Ingestion.SuccessNavigatesLast | app/routes/match-jd.tsx:72 | a successful run navigates to `/resume/<uuid>` as its last effect, and nowhere else |
| Ingestion.GeneralInstructionsIgnoreInput | app/routes/analyze-cv.tsx:56-59 | the general page's instructions never depend on any input |
| Ingestion.VariantsAgreeBeforeTheRecord | app/routes/analyze-cv.tsx:25-72 | both pages end alike and run the same first seven effects; they differ only in the record's job fields and the instructions |
| Ingestion.UploadPage.constructor | app/routes/match-jd.tsx:18 | nothing selected, not processing, no status, over the given store |
| Ingestion.UploadPage.UploadAndConvert | app/routes/match-jd.tsx:25-40 | the log, store and status follow the first three steps of the reference run; the paths come back exactly when all three succeed |
| Ingestion.UploadPage.HandleFileSelect | app/routes/match-jd.tsx:20-22 | the selected file is stored and nothing else changes |
| AnalyzeCv.HandleAnalyze | app/routes/analyze-cv.tsx:25-72 | the page's log, store, status line and ending are those of the reference run of the general variant |
| AnalyzeCv.HandleSubmit | app/routes/analyze-cv.tsx:74-78 | a no-op without a selected file; otherwise the reference run on that file |
| MatchJd.HandleAnalyze | app/routes/match-jd.tsx:24-74 | the page's log, store, status line and ending are those of the reference run of the job-match variant with the three form fields |
| MatchJd.HandleSubmit | app/routes/match-jd.tsx:76-89 | nothing without an enclosing form or a selected file; otherwise the reference run with the form's fields and the file |
| ResumeChat.TipLines | app/components/features/ResumeChat.tsx:52 | `filter(t => t.type === kind).map(...)`: no more lines than tips; every line is `- <tip>` of a tip of that kind, and every such tip has its line |
| ResumeChat.TipLinesAppend | app/components/features/ResumeChat.tsx:52 | the lines of a concatenation are those of each part, in order; with TipLinesSingleton this fixes the result, repeats and count included |
| ResumeChat.TipLinesSingleton | app/components/features/ResumeChat.tsx:52 | one tip gives its `- <tip>` line exactly when it is of the kind |
| ResumeChat.DetailLines | app/components/features/ResumeChat.tsx:58 | one line `- [<type>] <tip>: <explanation>` per tip, in order, an absent explanation printed as `undefined` |
| ResumeChat.BuildContext | app/components/features/ResumeChat.tsx:43-63 | a context exactly when the analysis has an ATS section; reading `feedback.ATS.score` throws otherwise |
| ResumeChat.TemplateTrimmed | app/components/features/ResumeChat.tsx:62 | trimming a template that opens with a newline before visible text and closes with a visible piece removes only that newline and the trailing whitespace |
| ResumeChat.TemplateHoldsRun | app/components/features/ResumeChat.tsx:62 | adjacent pieces strictly inside such a template survive trimming together |
| ResumeChat.ContextShape | app/components/features/ResumeChat.tsx:44-62 | the context template has that shape |
| ResumeChat.ContextTrimmed | app/components/features/ResumeChat.tsx:43-63 | the trimmed context is the opening and every piece through the skills list verbatim, then the content section without its trailing indentation |
| ResumeChat.ContextHoldsRun | app/components/features/ResumeChat.tsx:43-63 | any run of adjacent pieces between the opening and the content section appears in the context |
| ResumeChat.ContextListsAtsTips | app/components/features/ResumeChat.tsx:51-55 | the `good` ATS tips are listed under the strengths heading and the `improve` ones under improvements |
| ResumeChat.ContextNamesPosition | app/components/features/ResumeChat.tsx:48-49 | the company and title lines, with `N/A` for a falsy value |
| ResumeChat.Reply | app/components/features/ResumeChat.tsx:79-80 | no reply when the context throws; otherwise the answer to the untrimmed question with that context |
| ResumeChat.ReplyText | app/components/features/ResumeChat.tsx:82-95 | the assistant's message: the reply, or the fixed error text when the send threw |
| ResumeChat.CanSend | app/components/features/ResumeChat.tsx:66 | reference definition, no contract of its own: `handleSend`'s guard passes; `DisabledExactlyWhenNoOp` ties it to the disabled button and `ChatWindow.BeginSend` to the send |
| ResumeChat.DisabledExactlyWhenNoOp | app/components/features/ResumeChat.tsx:66-223 | the send button is disabled exactly when `handleSend` would return at its guard |
| ResumeChat.ChatWindow.constructor | app/components/features/ResumeChat.tsx:20-29 | closed, the greeting as the only message, empty input, nothing in flight; the quick questions show |
| ResumeChat.ChatWindow.SetOpen | app/components/features/ResumeChat.tsx:119-141 | the window opens or closes; nothing else changes |
| ResumeChat.ChatWindow.SetInput | app/components/features/ResumeChat.tsx:108-214 | the input takes the typed or suggested text; nothing else changes |
| ResumeChat.ChatWindow.BeginSend | app/components/features/ResumeChat.tsx:65-80 | nothing when the input is blank or a send is in flight; otherwise the typed text joins the log as the user's message, the input clears, a send is in flight, and the untrimmed question is returned; the log always opens with the greeting |
| ResumeChat.ChatWindow.CompleteSend | app/components/features/ResumeChat.tsx:80-98 | the reply or the error text joins the log as the assistant's message, and nothing is in flight |
| GeneralCoverLetter.DownloadName | app/components/features/GeneralCoverLetterGenerator.tsx:56-58 | the default name for an empty company, otherwise `cover-letter-<company with whitespace runs dashed>.txt` |
| GeneralCoverLetter.DownloadNameHasNoSpace | app/components/features/GeneralCoverLetterGenerator.tsx:56-58 | the file name never holds whitespace, whatever the company name holds |
| GeneralCoverLetter.DownloadNameDashesWords | app/components/features/GeneralCoverLetterGenerator.tsx:56-58 | words separated by a whitespace run of any length are joined by exactly one dash |
| GeneralCoverLetter.CanGenerate | app/components/features/GeneralCoverLetterGenerator.tsx:24-27 | reference definition, no contract of its own: the generate guard; `CanGenerateIsTrimTest` states it is the `trim` test |
| GeneralCoverLetter.CanGenerateIsTrimTest | app/components/features/GeneralCoverLetterGenerator.tsx:24-27 | the guard passes exactly when both trimmed fields are non-empty |
| GeneralCoverLetter.CoverLetterForm.constructor | app/components/features/GeneralCoverLetterGenerator.tsx:12-19 | form closed, not generating, no letter, empty fields |
| GeneralCoverLetter.CoverLetterForm.SetShowForm | app/components/features/GeneralCoverLetterGenerator.tsx:81-158 | the Create and Cancel buttons open and close the form; nothing else changes |
| GeneralCoverLetter.CoverLetterForm.SetFields | app/components/features/GeneralCoverLetterGenerator.tsx:102-129 | the inputs set the fields; nothing else changes |
| GeneralCoverLetter.CoverLetterForm.BeginGenerate | app/components/features/GeneralCoverLetterGenerator.tsx:23-36 | nothing when company or title is blank; otherwise generation is in flight for the fields as typed |
| GeneralCoverLetter.CoverLetterForm.CompleteGenerate | app/components/features/GeneralCoverLetterGenerator.tsx:36-43 | a letter is stored and the form closes; on an error only the flag changes; generation is over either way |
| GeneralCoverLetter.CoverLetterForm.Reset | app/components/features/GeneralCoverLetterGenerator.tsx:66-70 | no letter, empty fields, the form open, so the form and not the Create button shows |
| GeneralCoverLetter.OneViewAtATime | app/components/features/GeneralCoverLetterGenerator.tsx:81-182 | at most one of the Create button, the form and the letter is on screen |
| CoverLetter.DownloadName | app/components/features/CoverLetterGenerator.tsx:50-52 | the default name without a company, otherwise `cover-letter-<dashed company>.txt` |
| CoverLetter.SameFileNameAsForm | app/components/features/CoverLetterGenerator.tsx:50-52 | both generators name a letter for the same company alike |
| CoverLetter.QuickCoverLetter.constructor | app/components/features/CoverLetterGenerator.tsx:14-15 | not generating, no letter |
| CoverLetter.HasRequiredInfo | app/components/features/CoverLetterGenerator.tsx:18 | reference definition, no contract of its own: `resumeData.companyName && resumeData.jobTitle`; `QuickCoverLetter.BeginQuick` states that nothing is requested without it |
| CoverLetter.QuickCoverLetter.BeginQuick | app/components/features/CoverLetterGenerator.tsx:20-31 | nothing without both company and title; otherwise generation is in flight for them with an empty description |
| CoverLetter.QuickCoverLetter.CompleteQuick | app/components/features/CoverLetterGenerator.tsx:32-37 | the letter is stored, or kept on an error; generation is over either way |
| CoverLetter.QuickCoverLetter.GenerateNew | app/components/features/CoverLetterGenerator.tsx:150-152 | the letter goes and the generate button is back |
| AdminJobs.JobKey | app/routes/admin/jobs.tsx:57 | reference definition, no contract of its own: `` `job:${jobId}` ``; `SplitJobKey` and `JobIdRoundTrip` state that `JobId` reads the id back |
| AdminJobs.JobId | app/routes/admin/jobs.tsx:30 | reference definition, no contract of its own: `key.split(":")[1]`, absent when there is no colon; `JobIdRoundTrip` and `JobIdStopsAtColon` state it |
| AdminJobs.SplitJobKey | app/routes/admin/jobs.tsx:30 | a job key splits at the colon after `job` |
| AdminJobs.JobIdRoundTrip | app/routes/admin/jobs.tsx:30-57 | a colon-free id, such as a UUID, comes back from its key |
| AdminJobs.JobIdStopsAtColon | app/routes/admin/jobs.tsx:30 | an id holding a colon comes back cut at its first colon |
| AdminJobs.Reverse | app/routes/admin/jobs.tsx:35 | `reverse()`: same length, element `i` from position `n - 1 - i` |
| AdminJobs.ParseJobs | app/routes/admin/jobs.tsx:28-34 | the jobs exactly when every value parses, one per item, each with the id from its key and the parsed data |
| AdminJobs.SignInRedirect | app/routes/admin/jobs.tsx:19-23 | to the sign-in page exactly once loading is over and the user is signed out, and back to `/admin/jobs` afterwards |
| AdminJobs.DeleteKey | app/routes/admin/jobs.tsx:68-77 | a key is deleted exactly when the deletion is confirmed |
| AdminJobs.DeleteTargetsJob | app/routes/admin/jobs.tsx:68-77 | a confirmed deletion removes the key the job was read from |
| AdminJobs.AdminJobsPage.constructor | app/routes/admin/jobs.tsx:12-16 | no jobs, empty fields |
| AdminJobs.AdminJobsPage.LoadJobs | app/routes/admin/jobs.tsx:25-39 | nothing without a store or when the listing or a parse throws; otherwise the parsed jobs, last listed first |
| AdminJobs.AdminJobsPage.SetFields | app/routes/admin/jobs.tsx:12-16 | the inputs set the fields; the list is kept |
| AdminJobs.CanSubmit | app/routes/admin/jobs.tsx:48 | reference definition, no contract of its own: the submit guard, all three fields non-empty; `AdminJobsPage.Submit` states that nothing is written when it fails |
| AdminJobs.AdminJobsPage.Submit | app/routes/admin/jobs.tsx:46-66 | no write when a field is empty; otherwise the job written under `job:<id>`; after a successful write the fields clear and the list reloads, after a failed one the form keeps its values |
| AdminJobs.WrittenJobReadBack | app/routes/admin/jobs.tsx:25-62 | a job written by the form is read back, with its id, by the next load |
| Navbar.HidesAt | app/components/Navbar.tsx:19 | reference definition, no contract of its own: the hide test of `handleScroll`; `ShownNearTopOrScrollingUp` states when it holds |
| Navbar.ShownNearTopOrScrollingUp | app/components/Navbar.tsx:19-24 | the bar shows near the top and on any scroll that is not downwards, and hides exactly when scrolling down past 100 |
| Navbar.ScrollStateFromLastTwo | app/components/Navbar.tsx:14-28 | however many scroll events, the ref holds the last position and the bar is hidden exactly when the last event went down past the threshold |
| Navbar.AtMostOneActive | app/components/Navbar.tsx:37 | exact matching: at most one link is highlighted, and none on a sub-path |
| Navbar.LogoutNavigation | app/components/Navbar.tsx:39-46 | to `/auth` exactly when signing out succeeded |
| Navbar.DisplayName | app/components/Navbar.tsx:101 | the user name when truthy, otherwise `User` |
| Navbar.NavbarState.constructor | app/components/Navbar.tsx:10-11 | shown, last position 0 |
| Navbar.NavbarState.HandleScroll | app/components/Navbar.tsx:14-28 | hidden exactly when scrolling down past 100; the ref takes the new position |
| LayoutNavbar.AtMostOneLinkActive | app/components/layout/Navbar.tsx:40-55 | at most one of the three links is highlighted |
| LayoutNavbar.LayoutNavbarState.constructor | app/components/layout/Navbar.tsx:10-13 | shown, last position 0, menu closed |
| LayoutNavbar.LayoutNavbarState.HandleScroll | app/components/layout/Navbar.tsx:16-26 | the plain bar's scroll rule; the menu and the route are untouched |
| LayoutNavbar.LayoutNavbarState.ToggleMobileMenu | app/components/layout/Navbar.tsx:134 | the menu flips; nothing else changes |
| LayoutNavbar.LayoutNavbarState.Navigate | app/components/layout/Navbar.tsx:36-38 | a route change closes the menu; the same path leaves it as it is |

## Left out

- Rendering: JSX layout, CSS classes, gsap animations and scrolling messages into view. Only the visibility conditions are modelled.
- The Puter SDK: `fs`, `kv`, `ai` and `auth` calls are parameters or outcomes given to the handlers. Their own behaviour is not part of this model.
- Ingestion.Analysis: a rejected promise is not modelled. `handleAnalyze` in routes/analyze-cv.tsx and routes/match-jd.tsx has no `try`/`catch`. If `fs.upload`, `kv.set` or `ai.feedback` rejects, the handler stops there, `isProcessing` stays true and the status text is the last step's. The model lets the uploads and `ai.feedback` resolve to a value or a falsy result, and lets `kv.set` always succeed. The one exception it models is the one `JSON.parse` throws.
- `JSON.stringify`: the store holds model values. Reading back a written record therefore assumes that parse inverts stringify.
- `JSON.parse`: a parameter. Only whether it succeeds and what it yields are modelled.
- pdf.js internals, the canvas, `Blob`, `File`, `URL.createObjectURL`, the worker source and the contents of a rendered page are parameters of the conversion. Dynamic `import()` is an event of the loader.
- Concurrency: the loader cache, the pipelines and the handlers are modelled sequentially. Real interleavings of promises and double submits are not.
- Floating point: `formatSize` and ScoreCircle are not part of this model. `Math.round` is modelled only on integer totals divided by a count, with halves rounded up.
- Scroll positions are whole pixels.
- `crypto.randomUUID` and `generateUUID` are parameters that give the identifier.
- Wall-clock values are parameters: the profile's last activity and the default `datePosted`. Chat message timestamps are dropped.
- Alerts: the texts alerted by the job-suggestion runs are recorded, in order, in the `alerts` field of `UseJobSuggestions.HookState` and `ResumePage.PageState`. The other alerts are left out and only the decisions that lead to them are modelled. These are the cover-letter generators' alerts, the copy confirmation and the admin page's alerts.
- Console logging, the clipboard and the cover-letter download blob are left out. `window.confirm` is a boolean parameter.
- `Auth.LocationSearch`: a URL fragment (`#...`) is not modelled, because no target in the application uses one.
- JavaScript regular expressions are modelled only where the sources use them: `\s` is the whitespace set of `Text.IsSpace`, and `/\{[\s\S]*\}/` is the first-`{`-to-last-`}` span.
- `LayoutNavbar.LayoutNavbarState.Navigate`: the effect that closes the mobile menu runs only when the pathname changes, as a React effect keyed on `location.pathname` does. A navigation to the same path keeps the menu as it was.
- Not part of this model, because they are presentation or plumbing: both FileUploader components, both Footer components, Button, ResumeCard, CandidateInfoCard, ScoreCircle, hooks/useResumeData.ts, routes/jobs.tsx, routes/upload.tsx, routes/api.jobs.tsx, routes/admin/make-admin.tsx and routes.ts.
- `encodeURIComponent` and `parseInt` in the job-search request are not part of this model. The request is a parameter of the fetch outcome.

## Findings

| source | as written | input that shows it | evidently intended | confidence | as-written member | corrected member |
|---|---|---|---|---|---|---|
| app/routes/resume.tsx:37 | the sign-in redirect is `` `/auth?next=/resume${id}` ``, with no `/` between `resume` and the identifier | id `abc` gives `next=/resumeabc`, which is not the `/resume/:id` route | `` `/auth?next=/resume/${id}` ``, returning to the record's page | not executed | ResumePage.AsWrittenRedirectMissesRoute | ResumePage.RedirectReturnsToRecord |
