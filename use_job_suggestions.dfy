/**
 * app/hooks/useJobSuggestions.ts: the hook's three state variables and
 * `suggestJobs`, which runs the shared suggestion rule with
 * `JOB_SUGGESTION_PROMPT`. The `alerts` field records the `alert` calls, in
 * order; the `await`s are the calls of the environment's functions.
 */
module UseJobSuggestions {
  import opened Wrappers
  import opened Types
  import opened AiResponse
  import opened JobsApi
  import opened JobSuggestion
  import Prompts

  /** The hook's state, with the alerts shown so far. */
  datatype HookState = HookState(isSuggesting: bool, suggestedJobs: seq<ExternalJob>, error: Option<string>,
    alerts: seq<string>)

  /**
   * The state a run leaves: without feedback only the alert; otherwise the
   * list and the error were reset, the outcome is recorded, and the
   * `finally` block clears `isSuggesting`.
   */
  function AfterRun(s: HookState, o: Outcome): HookState {
    match o
    case NotReady => s.(alerts := s.alerts + [NotReadyAlert])
    case NoJobs => HookState(false, [], None, s.alerts + [NoJobsAlert])
    case Failed(m) => HookState(false, [], Some(m), s.alerts + [FailurePrefix + m])
    case Suggested(jobs) => HookState(false, jobs, None, s.alerts)
  }

  /**
   * After a run with feedback nothing is in progress; exactly a failure
   * sets the error; a run adds at most one alert, never when it succeeds,
   * and keeps the earlier ones.
   */
  lemma RunSettles(s: HookState, o: Outcome)
    ensures var t := AfterRun(s, o);
      (o != NotReady ==> !t.isSuggesting && (t.error.Some? <==> o.Failed?))
      && (o == NotReady ==> t.(alerts := s.alerts) == s)
      && |s.alerts| <= |t.alerts| <= |s.alerts| + 1 && t.alerts[..|s.alerts|] == s.alerts
      && (o.Suggested? <==> o != NotReady && t.alerts == s.alerts)
  {
  }

  class JobSuggestionsHook {
    var isSuggesting: bool
    var suggestedJobs: seq<ExternalJob>
    var error: Option<string>
    var alerts: seq<string>

    function State(): HookState
      reads this
    {
      HookState(isSuggesting, suggestedJobs, error, alerts)
    }

    /** `useState(false)`, `useState([])`, `useState(null)`. */
    constructor ()
      ensures State() == HookState(false, [], None, [])
    {
      isSuggesting := false;
      suggestedJobs := [];
      error := None;
      alerts := [];
    }

    /** The catch block: the message is stored and alerted. */
    method Fail(message: string)
      modifies this
      ensures State() == old(State()).(error := Some(message), alerts := old(alerts) + [FailurePrefix + message])
    {
      error := Some(message);
      alerts := alerts + [FailurePrefix + message];
    }

    /**
     * Steps 4 and 5 of `suggestJobs`: a missing reply is an error; otherwise
     * the selected jobs are stored, or the parse error is reported.
     */
    method UseReply(allJobs: seq<ExternalJob>, response: Option<Content>, parseIds: string -> Result<seq<string>>)
      modifies this
      ensures match Answer(allJobs, response, parseIds)
        case Failed(m) => State() == old(State()).(error := Some(m), alerts := old(alerts) + [FailurePrefix + m])
        case Suggested(jobs) => State() == old(State()).(suggestedJobs := jobs)
        case _ => false
    {
      if response.None? {
        Fail(NoReplyMessage);
        return;
      }
      var content := ContentText(response.value);
      var jsonMatch := BracketMatch(content);
      if jsonMatch.Some? {
        var parsed := parseIds(jsonMatch.value);
        if parsed.Err? {
          Fail(parsed.message);
          return;
        }
        var matchedJobs := Filter(allJobs, parsed.value);
        suggestedJobs := Take(matchedJobs, 3);
      } else {
        suggestedJobs := Take(allJobs, 3);
      }
    }

    /** `suggestJobs(feedback)`. */
    method SuggestJobs(feedback: Option<Feedback>, env: SuggestEnv)
      modifies this
      ensures State() == AfterRun(old(State()), Suggest(feedback, env, Prompts.JobSuggestionPrompt))
    {
      if feedback.None? {
        alerts := alerts + [NotReadyAlert];
        return;
      }
      var f := feedback.value;
      isSuggesting := true;
      suggestedJobs := [];
      error := None;
      var fetched, cvSkills := FetchedJobs(f, env), SkillsText(f);
      assert Suggest(feedback, env, Prompts.JobSuggestionPrompt) == AfterFetch(fetched, cvSkills, env, Prompts.JobSuggestionPrompt);
      UseFetched(fetched, cvSkills, env);
    }

    /**
     * `suggestJobs` once `isSuggesting` is set and the list and the error
     * are reset: the fetched jobs, the AI's reply and the `finally` block.
     */
    method UseFetched(fetched: Result<seq<ExternalJob>>, cvSkills: string, env: SuggestEnv)
      requires suggestedJobs == [] && error == None
      modifies this
      ensures State() == AfterRun(old(State()), AfterFetch(fetched, cvSkills, env, Prompts.JobSuggestionPrompt))
    {
      if fetched.Err? {
        Fail(fetched.message);
        isSuggesting := false;
        return;
      }
      var allJobs := fetched.value;
      if |allJobs| == 0 {
        alerts := alerts + [NoJobsAlert];
        isSuggesting := false;
        return;
      }
      var prompt := Prompts.JobSuggestionPrompt(cvSkills, env.stringify(Take(allJobs, 10)));
      var response := env.chat(prompt);
      if response.Err? {
        Fail(response.message);
        isSuggesting := false;
        return;
      }
      UseReply(allJobs, response.value, env.parseIds);
      isSuggesting := false;
    }
  }
}
