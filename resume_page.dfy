/**
 * app/routes/resume.tsx: the review page. It redirects unauthenticated
 * users to the sign-in page, loads the record `resume-<id>` and its two
 * files, offers job suggestions for a general record (the shared rule of
 * module JobSuggestion with the page's own Vietnamese prompt, and no error
 * state), and decides which panels are shown. The store holds records as
 * values, so `JSON.parse` of a record is not modelled.
 */
module ResumePage {
  import opened Wrappers
  import opened Text
  import opened Types
  import opened JobsApi
  import opened JobSuggestion
  import Ingestion
  import Auth
  import Pdf2Img

  /** The fixed text of the page's own prompt before the skills. */
  const PageJobsHead: string :=
      "\n" +
      "        Bạn " + "là một chuyên " + "gia tuyển " + "dụng AI.\n" +
      "        Dưới " + "đây là kỹ " + "năng của một " + "ứng viên:\n" +
      "        ---CV " + "SKILLS---\n" +
      "        "

  /** Between the skills and the jobs. */
  const PageJobsMiddle: string :=
      "\n" +
      "        ---\n" +
      "\n" +
      "        Đây " + "là danh sách " + "các việc làm " + "thật:\n" +
      "        ---JOBS---\n" +
      "        "

  /** After the jobs. */
  const PageJobsTail: string :=
      "\n" +
      "        ---\n" +
      "\n" +
      "        Dựa " + "trên kỹ năng " + "của ứng viên, " + "hãy chọn 3 " + "công việc phù " + "hợp nhất.\n" +
      "        Trả " + "về MỘT MẢNG " + "JSON chỉ chứa " + "ID của 3 job " + "đó.\n" +
      "        Ví " + "dụ: " + "[\"job-id-1\", " + "\"job-id-2\", " + "\"job-id-3\"]\n" +
      "      "

  /** The page's inline prompt, with the skills and the jobs JSON interpolated. */
  function PageJobsPrompt(cvSkills: string, jobsJson: string): string {
    Concat([PageJobsHead, cvSkills, PageJobsMiddle, jobsJson, PageJobsTail])
  }

  /** The skills and the jobs JSON are embedded verbatim. */
  lemma PageJobsPromptEmbeds(cvSkills: string, jobsJson: string)
    ensures IsInfix(cvSkills, PageJobsPrompt(cvSkills, jobsJson))
    ensures IsInfix(jobsJson, PageJobsPrompt(cvSkills, jobsJson))
  {
    ConcatHoldsPiece([PageJobsHead, cvSkills, PageJobsMiddle, jobsJson, PageJobsTail], 1);
    ConcatHoldsPiece([PageJobsHead, cvSkills, PageJobsMiddle, jobsJson, PageJobsTail], 3);
  }

  /** The path of the review page, as `/resume/:id` declares it: one non-empty segment after `/resume/`. */
  predicate IsResumeRoute(path: string) {
    |path| > 8 && path[..8] == "/resume/" && forall k :: 8 <= k < |path| ==> path[k] != '/'
  }

  /** An id as the application creates them: non-empty, without `/` or `=`. */
  predicate PlainId(id: string) {
    id != [] && forall k :: 0 <= k < |id| ==> id[k] != '/' && id[k] != '='
  }

  /** The sign-in redirect as the page writes it, `/auth?next=/resume${id}`: no slash before the id. */
  function AuthRedirectAsWritten(id: string): string {
    Auth.LoginUrl("/resume" + id)
  }

  /** The sign-in redirect with the slash the route needs, `/auth?next=/resume/${id}`. */
  function AuthRedirect(id: string): string {
    Auth.LoginUrl("/resume/" + id)
  }

  /** A fixed path followed by a plain id holds no `=`. */
  lemma NoEqualsInPath(p: string, id: string)
    requires forall k :: 0 <= k < |p| ==> p[k] != '='
    requires PlainId(id)
    ensures forall k :: 0 <= k < |p + id| ==> (p + id)[k] != '='
  {
    forall k | 0 <= k < |p + id| ensures (p + id)[k] != '=' {
      if k >= |p| {
        assert (p + id)[k] == id[k - |p|];
      }
    }
  }

  /**
   * After signing in, the page as written sends the user to
   * `/resume<id>`, which is not the review page's route.
   */
  lemma AsWrittenRedirectMissesRoute(id: string)
    requires PlainId(id)
    ensures Auth.RedirectTarget(Auth.LocationSearch(AuthRedirectAsWritten(id))) == "/resume" + id
    ensures !IsResumeRoute("/resume" + id)
  {
    var path := "/resume" + id;
    NoEqualsInPath("/resume", id);
    Auth.LoginReturnsTo(path);
    AsWrittenPathNotRoute(id);
  }

  lemma AsWrittenPathNotRoute(id: string)
    requires PlainId(id)
    ensures !IsResumeRoute("/resume" + id)
  {
    var path := "/resume" + id;
    assert path[..8][7] == id[0];
  }

  /** The corrected redirect brings the user back to the record's page. */
  lemma RedirectReturnsToRecord(id: string)
    requires PlainId(id)
    ensures Auth.RedirectTarget(Auth.LocationSearch(AuthRedirect(id))) == Ingestion.ResultPath(id)
    ensures IsResumeRoute(Ingestion.ResultPath(id))
  {
    var path := "/resume/" + id;
    NoEqualsInPath("/resume/", id);
    Auth.LoginReturnsTo(path);
    ResultPathIsRoute(id);
  }

  /** The page an analysis navigates to matches the review route. */
  lemma ResultPathIsRoute(id: string)
    requires PlainId(id)
    ensures IsResumeRoute(Ingestion.ResultPath(id))
  {
    var path := Ingestion.ResultPath(id);
    assert path[..8] == "/resume/";
    assert forall k :: 8 <= k < |path| ==> path[k] == id[k - 8];
  }

  /** The redirect effect: only once loading is over and the user is not signed in. */
  function AuthRedirectEffect(isLoading: bool, isAuthenticated: bool, id: string): (r: Option<string>)
    ensures r.Some? <==> !isLoading && !isAuthenticated
    ensures r.Some? ==> Auth.LocationSearch(r.value) == "?" + Auth.NextKey + ("/resume/" + id)
  {
    if !isLoading && !isAuthenticated then
      Auth.SearchOfLoginUrl("/resume/" + id);
      Some(AuthRedirect(id))
    else None
  }

  /** `fs.read` of a path, and `URL.createObjectURL` of the PDF blob (typed `application/pdf`) and of the image blob. */
  datatype LoadEnv = LoadEnv(
    read: string -> Option<Pdf2Img.Blob>,
    pdfUrl: Pdf2Img.Blob -> string,
    imageUrl: Pdf2Img.Blob -> string)

  /** The page's state variables, with the alerts shown so far. */
  datatype PageState = PageState(
    imageUrl: Option<string>,
    resumeUrl: Option<string>,
    feedback: Option<Feedback>,
    resumeData: Option<Resume>,
    isSuggesting: bool,
    suggestedJobs: seq<ExternalJob>,
    alerts: seq<string>)

  const Initial := PageState(None, None, None, None, false, [], [])

  /** `setFeedback(data.feedback)`: a pending record's `''` is falsy, so there is no feedback. */
  function FeedbackOf(field: FeedbackField): (r: Option<Feedback>)
    ensures r.None? <==> field.Pending?
    ensures r.Some? ==> field == Parsed(r.value)
  {
    match field
    case Pending => None
    case Parsed(f) => Some(f)
  }

  /**
   * The load effect: nothing without an id or without a stored record;
   * otherwise the record, each file's URL when the file can be read (the
   * earlier URL is kept when it cannot), and the record's feedback.
   */
  function AfterLoad(s: PageState, id: string, kv: map<string, Resume>, env: LoadEnv): PageState {
    if id == "" || ResumeKey(id) !in kv then s
    else
      var data := kv[ResumeKey(id)];
      s.(resumeData := Some(data),
         resumeUrl := (match env.read(data.resumePath) case None => s.resumeUrl case Some(b) => Some(env.pdfUrl(b))),
         imageUrl := (match env.read(data.imagePath) case None => s.imageUrl case Some(b) => Some(env.imageUrl(b))),
         feedback := FeedbackOf(data.feedback))
  }

  /**
   * Loading touches only the record, the file URLs and the feedback, and
   * shows exactly the record stored under `resume-<id>`.
   */
  lemma LoadShowsStoredRecord(s: PageState, id: string, kv: map<string, Resume>, env: LoadEnv)
    ensures var t := AfterLoad(s, id, kv, env);
      t.isSuggesting == s.isSuggesting && t.suggestedJobs == s.suggestedJobs && t.alerts == s.alerts
      && (id != "" && ResumeKey(id) in kv ==>
            t.resumeData == Some(kv[ResumeKey(id)]) && t.feedback == FeedbackOf(kv[ResumeKey(id)].feedback))
      && (id == "" || ResumeKey(id) !in kv ==> t == s)
  {
  }

  /**
   * After a successful analysis, the review page of the new id shows the
   * parsed feedback and the stored record of that run.
   */
  lemma LoadAfterAnalysis(s: PageState, v: Ingestion.Variant, file: Ingestion.PdfFile, c: Ingestion.Collaborators,
    kv: map<string, Resume>, env: LoadEnv)
    requires Ingestion.Uploaded(c) && c.uuid != ""
    requires c.reply.Some? && c.parse(AiResponse.ContentText(c.reply.value)).Ok?
    ensures var f := c.parse(AiResponse.ContentText(c.reply.value)).value;
      var t := AfterLoad(s, c.uuid, Ingestion.Store(kv, Ingestion.Analysis(v, file, c).effects), env);
      t.feedback == Some(f) && t.resumeData == Some(Ingestion.ProvisionalOf(v, c).(feedback := Parsed(f)))
  {
    Ingestion.SuccessRewritesFeedbackOnly(v, file, c, kv);
  }

  /**
   * When the AI returned nothing, the page finds the provisional record and
   * keeps showing the analysing placeholder.
   */
  lemma LoadAfterAiFailure(s: PageState, v: Ingestion.Variant, file: Ingestion.PdfFile, c: Ingestion.Collaborators,
    kv: map<string, Resume>, env: LoadEnv)
    requires Ingestion.Uploaded(c) && c.uuid != "" && c.reply.None?
    ensures var t := AfterLoad(s, c.uuid, Ingestion.Store(kv, Ingestion.Analysis(v, file, c).effects), env);
      t.feedback.None? && t.resumeData == Some(Ingestion.ProvisionalOf(v, c)) && !ShowsAnalysis(t)
  {
    Ingestion.AiFailureKeepsProvisional(v, file, c, kv);
  }

  /** The state `handleSuggestJobs` leaves: like the hook's, without an error state. */
  function AfterSuggest(s: PageState, o: Outcome): PageState {
    match o
    case NotReady => s.(alerts := s.alerts + [NotReadyAlert])
    case NoJobs => s.(isSuggesting := false, suggestedJobs := [], alerts := s.alerts + [NoJobsAlert])
    case Failed(m) => s.(isSuggesting := false, suggestedJobs := [], alerts := s.alerts + [FailurePrefix + m])
    case Suggested(jobs) => s.(isSuggesting := false, suggestedJobs := jobs)
  }

  /**
   * A suggestion run changes only the suggestion state and the alerts; with
   * feedback it always ends with `isSuggesting` false (the `finally` block);
   * without feedback it only alerts.
   */
  lemma SuggestTouchesOnlySuggestions(s: PageState, o: Outcome)
    ensures var t := AfterSuggest(s, o);
      t.(isSuggesting := s.isSuggesting, suggestedJobs := s.suggestedJobs, alerts := s.alerts) == s
      && (o != NotReady ==> !t.isSuggesting)
      && (o == NotReady ==> t == s.(alerts := s.alerts + [NotReadyAlert]))
      && (o.Suggested? ==> t.alerts == s.alerts && t.suggestedJobs == o.jobs)
  {
  }

  /**
   * With feedback, a run's end state is what the fetch and the reply make
   * of the state in which `isSuggesting` was set and the list cleared.
   */
  lemma SuggestFromStart(s: PageState, f: Feedback, env: SuggestEnv)
    ensures AfterSuggest(s.(isSuggesting := true, suggestedJobs := []),
                         AfterFetch(FetchedJobs(f, env), SkillsText(f), env, PageJobsPrompt))
         == AfterSuggest(s, Suggest(Some(f), env, PageJobsPrompt))
  {
    var o := AfterFetch(FetchedJobs(f, env), SkillsText(f), env, PageJobsPrompt);
    assert Suggest(Some(f), env, PageJobsPrompt) == o;
    assert o != NotReady;
  }

  /** `!resumeData?.jobTitle`: the suggestion panel, for a record without a job title. */
  predicate ShowsSuggestionPanel(s: PageState) {
    s.resumeData.None? || !Truthy(s.resumeData.value.jobTitle)
  }

  /** `resumeData?.jobTitle`: the banner naming the job the record was matched against. */
  predicate ShowsJobBanner(s: PageState) {
    s.resumeData.Some? && Truthy(s.resumeData.value.jobTitle)
  }

  /** `disabled={isSuggesting || !feedback}`. */
  predicate SuggestButtonDisabled(s: PageState) {
    s.isSuggesting || s.feedback.None?
  }

  /** The list of suggestions, inside the panel, when there is at least one. */
  predicate ShowsSuggestions(s: PageState) {
    ShowsSuggestionPanel(s) && |s.suggestedJobs| > 0
  }

  /** Summary, ATS and Details once there is feedback; the analysing placeholder before. */
  predicate ShowsAnalysis(s: PageState) {
    s.feedback.Some?
  }

  /** The button's label. */
  function SuggestButtonLabel(s: PageState): (r: string)
    ensures s.isSuggesting <==> r == "Đang tìm kiếm..."
  {
    if s.isSuggesting then "Đang tìm kiếm..." else "Tìm việc làm phù hợp"
  }

  /** Exactly one of the suggestion panel and the job banner is shown. */
  lemma PanelOrBanner(s: PageState)
    ensures ShowsSuggestionPanel(s) <==> !ShowsJobBanner(s)
  {
  }

  /**
   * A record written by the general analysis offers suggestions; one
   * written by the job-match analysis with a non-empty title shows the
   * banner instead. Until the feedback arrives the button is disabled.
   */
  lemma PanelFollowsVariant(s: PageState, v: Ingestion.Variant, uuid: string, pdf: string, image: string,
    env: LoadEnv)
    requires uuid != ""
    ensures var t := AfterLoad(s, uuid, map[ResumeKey(uuid) := Ingestion.Provisional(v, uuid, pdf, image)], env);
      (v.GeneralAnalysis? ==> ShowsSuggestionPanel(t) && !ShowsJobBanner(t))
      && (v.JobMatchAnalysis? && v.jobTitle != "" ==> ShowsJobBanner(t) && !ShowsSuggestionPanel(t))
      && SuggestButtonDisabled(t) && !ShowsAnalysis(t)
  {
  }

  /** The button is enabled only with feedback and no run in flight; a click then starts a run. */
  lemma EnabledButtonRuns(s: PageState, env: SuggestEnv)
    requires !SuggestButtonDisabled(s)
    ensures Suggest(s.feedback, env, PageJobsPrompt) != NotReady
  {
  }

  /** The page's state variables. */
  class ResumeView {
    var imageUrl: Option<string>
    var resumeUrl: Option<string>
    var feedback: Option<Feedback>
    var resumeData: Option<Resume>
    var isSuggesting: bool
    var suggestedJobs: seq<ExternalJob>
    var alerts: seq<string>

    function State(): PageState
      reads this
    {
      PageState(imageUrl, resumeUrl, feedback, resumeData, isSuggesting, suggestedJobs, alerts)
    }

    constructor ()
      ensures State() == Initial
    {
      imageUrl := None;
      resumeUrl := None;
      feedback := None;
      resumeData := None;
      isSuggesting := false;
      suggestedJobs := [];
      alerts := [];
    }

    /** The load effect: `loadResume()` when there is an id. */
    method LoadResume(id: string, kv: map<string, Resume>, env: LoadEnv)
      modifies this
      ensures State() == AfterLoad(old(State()), id, kv, env)
    {
      if id == "" {
        return;
      }
      var key := ResumeKey(id);
      if key !in kv {
        return;
      }
      var data := kv[key];
      resumeData := Some(data);
      var resumeBlob := env.read(data.resumePath);
      if resumeBlob.Some? {
        resumeUrl := Some(env.pdfUrl(resumeBlob.value));
      }
      var imageBlob := env.read(data.imagePath);
      if imageBlob.Some? {
        imageUrl := Some(env.imageUrl(imageBlob.value));
      }
      feedback := FeedbackOf(data.feedback);
    }

    /** Steps 4 and 5 of `handleSuggestJobs`: the reply, or the alert for the caught error. */
    method UseReply(allJobs: seq<ExternalJob>, response: Option<AiResponse.Content>,
      parseIds: string -> Result<seq<string>>)
      modifies this
      ensures match Answer(allJobs, response, parseIds)
        case Failed(m) => State() == old(State()).(alerts := old(alerts) + [FailurePrefix + m])
        case Suggested(jobs) => State() == old(State()).(suggestedJobs := jobs)
        case _ => false
    {
      if response.None? {
        alerts := alerts + [FailurePrefix + NoReplyMessage];
        return;
      }
      var content := AiResponse.ContentText(response.value);
      var jsonMatch := BracketMatch(content);
      if jsonMatch.Some? {
        var parsed := parseIds(jsonMatch.value);
        if parsed.Err? {
          alerts := alerts + [FailurePrefix + parsed.message];
          return;
        }
        var matchedJobs := Filter(allJobs, parsed.value);
        suggestedJobs := Take(matchedJobs, 3);
      } else {
        suggestedJobs := Take(allJobs, 3);
      }
    }

    /** `handleSuggestJobs()`, on the page's current feedback. */
    method HandleSuggestJobs(env: SuggestEnv)
      modifies this
      ensures State() == AfterSuggest(old(State()), Suggest(old(feedback), env, PageJobsPrompt))
    {
      if feedback.None? {
        alerts := alerts + [NotReadyAlert];
        return;
      }
      var f := feedback.value;
      isSuggesting := true;
      suggestedJobs := [];

      var fetched, cvSkills := FetchedJobs(f, env), SkillsText(f);
      assert State() == old(State()).(isSuggesting := true, suggestedJobs := []);
      SuggestFromStart(old(State()), f, env);
      UseFetched(fetched, cvSkills, env);
    }

    /**
     * `handleSuggestJobs` once `isSuggesting` is set and the list is
     * cleared: the fetched jobs, the AI's reply and the `finally` block.
     */
    method UseFetched(fetched: Result<seq<ExternalJob>>, cvSkills: string, env: SuggestEnv)
      requires suggestedJobs == []
      modifies this
      ensures State() == AfterSuggest(old(State()), AfterFetch(fetched, cvSkills, env, PageJobsPrompt))
    {
      if fetched.Err? {
        alerts := alerts + [FailurePrefix + fetched.message];
        isSuggesting := false;
        return;
      }
      var allJobs := fetched.value;
      if |allJobs| == 0 {
        alerts := alerts + [NoJobsAlert];
        isSuggesting := false;
        return;
      }

      var prompt := PageJobsPrompt(cvSkills, env.stringify(Take(allJobs, 10)));
      var response := env.chat(prompt);
      if response.Err? {
        alerts := alerts + [FailurePrefix + response.message];
        isSuggesting := false;
        return;
      }
      UseReply(allJobs, response.value, env.parseIds);
      isSuggesting := false;
    }
  }
}
