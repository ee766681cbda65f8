/**
 * The job-suggestion rule shared by app/hooks/useJobSuggestions.ts and
 * app/routes/resume.tsx: the search query built from the skill tips, the
 * first `[...]` span of the AI's reply, and the selection of at most three
 * of the fetched jobs whose ids it lists, with the first three jobs as the
 * fallback. The fetch, the AI call, `JSON.stringify` and `JSON.parse` are
 * parameters.
 */
module JobSuggestion {
  import opened Wrappers
  import opened Text
  import opened Types
  import opened AiResponse
  import opened JobsApi

  const NoSkills := "Không có kỹ năng"
  const DefaultSkill := "software"

  /** The alert shown when there is no feedback yet. */
  const NotReadyAlert := "Dữ liệu feedback CV chưa sẵn sàng."
  /** The alert shown when the job search finds nothing. */
  const NoJobsAlert := "Không tìm thấy job phù hợp từ RapidAPI."
  /** The message of the error thrown when the AI answers nothing. */
  const NoReplyMessage := "AI không trả về phản hồi"
  /** The alert shown for a caught error, followed by its message. */
  const FailurePrefix := "Lỗi khi gợi ý việc làm: "

  function TipTexts(tips: seq<Tip>): (r: seq<string>)
    ensures |r| == |tips| && forall k :: 0 <= k < |r| ==> r[k] == tips[k].tip
  {
    if tips == [] then [] else [tips[0].tip] + TipTexts(tips[1..])
  }

  /** Every part of a joined list occurs in the result. */
  lemma {:induction false} JoinHoldsParts(parts: seq<string>, sep: string, k: nat)
    requires k < |parts|
    ensures IsInfix(parts[k], Join(parts, sep))
  {
    if |parts| == 1 {
      assert OccursAt(parts[0], parts[0], 0);
    } else {
      var rest := Join(parts[1..], sep);
      if k == 0 {
        assert OccursAt(parts[0], parts[0], 0);
        InfixLeft(parts[0], parts[0], sep);
        InfixLeft(parts[0], parts[0] + sep, rest);
      } else {
        JoinHoldsParts(parts[1..], sep, k - 1);
        InfixRight(parts[k], parts[0] + sep, rest);
      }
    }
  }

  /**
   * `feedback.skills?.tips?.map(tip => tip.tip).join(', ') || "Không có kỹ năng"`:
   * never empty, and the fixed text when there are no tips.
   */
  function SkillsText(f: Feedback): (r: string)
    ensures r != ""
    ensures f.skills.tips == [] ==> r == NoSkills
  {
    var joined := Join(TipTexts(f.skills.tips), ", ");
    if joined != "" then joined else NoSkills
  }

  /** Unless every tip text is empty, the skills text holds each tip's text. */
  lemma SkillsTextHoldsTips(f: Feedback, k: nat)
    requires k < |f.skills.tips| && Join(TipTexts(f.skills.tips), ", ") != ""
    ensures IsInfix(f.skills.tips[k].tip, SkillsText(f))
  {
    JoinHoldsParts(TipTexts(f.skills.tips), ", ", k);
  }

  /**
   * `cvSkills.split(',')[0]?.trim() || 'software'`: the first comma-separated
   * segment, trimmed, or the default when that is blank. The result holds no
   * comma and no surrounding whitespace.
   */
  function FirstSkill(cvSkills: string): string {
    OrElse(Some(Trim(SplitOn(cvSkills, ",")[0])), DefaultSkill)
  }

  /**
   * The first skill is the trimmed first segment, or the default when that
   * is blank: never empty, no comma, no space at either end.
   */
  lemma FirstSkillShape(cvSkills: string)
    ensures var r := FirstSkill(cvSkills);
      r != [] && !IsSpace(r[0]) && !IsSpace(r[|r| - 1])
      && !IsInfix(",", r)
      && (r == DefaultSkill || IsInfix(r, cvSkills))
  {
    var first := SplitOn(cvSkills, ",")[0];
    var trimmed := Trim(first);
    if trimmed != "" {
      assert FirstSkill(cvSkills) == trimmed;
      assert !IsInfix(",", trimmed) by {
        SplitOnPieceFree(cvSkills, ",", 0);
        if IsInfix(",", trimmed) {
          InfixTransitive(",", trimmed, first);
        }
      }
      assert IsInfix(trimmed, cvSkills) by {
        SplitOnHead(cvSkills, ",");
        PrefixIsInfix(cvSkills, |first|);
        InfixTransitive(trimmed, first, cvSkills);
      }
    } else {
      assert FirstSkill(cvSkills) == DefaultSkill;
      DefaultSkillVisible();
    }
  }

  lemma DefaultSkillVisible()
    ensures DefaultSkill != [] && !IsSpace(DefaultSkill[0]) && !IsSpace(DefaultSkill[|DefaultSkill| - 1])
    ensures !IsInfix(",", DefaultSkill)
  {
    assert DefaultSkill[0] == 's' && DefaultSkill[|DefaultSkill| - 1] == 'e';
    CharInfixIff(',', DefaultSkill);
  }

  /** `${firstSkill} developer`.trim() */
  function SearchQuery(cvSkills: string): string {
    Trim(FirstSkill(cvSkills) + " developer")
  }

  /** The outer trim changes nothing: the query is exactly the first skill followed by " developer". */
  lemma QueryIsSkillAndDeveloper(cvSkills: string)
    ensures SearchQuery(cvSkills) == FirstSkill(cvSkills) + " developer"
  {
    FirstSkillShape(cvSkills);
    DeveloperQueryVisible(FirstSkill(cvSkills));
  }

  lemma DeveloperQueryVisible(skill: string)
    requires skill != [] && !IsSpace(skill[0]) && !IsSpace(skill[|skill| - 1])
    ensures Trim(skill + " developer") == skill + " developer"
  {
    var q := skill + " developer";
    assert q[0] == skill[0] && q[|q| - 1] == 'r';
    TrimVisible(q);
  }

  /** When the first skill tip is a comma-free, non-blank text, the query is built from it. */
  lemma QueryFromFirstTip(f: Feedback)
    requires |f.skills.tips| > 0 && !Blank(f.skills.tips[0].tip) && !IsInfix(",", f.skills.tips[0].tip)
    ensures SearchQuery(SkillsText(f)) == Trim(f.skills.tips[0].tip) + " developer"
  {
    var parts := TipTexts(f.skills.tips);
    var a := parts[0];
    var joined := Join(parts, ", ");
    assert joined != "" && SkillsText(f) == joined by {
      JoinHoldsParts(parts, ", ", 0);
      assert a != [];
    }
    var rest := if |parts| == 1 then "" else ", " + Join(parts[1..], ", ");
    assert joined == a + rest;
    FirstSegment(a, rest);
    assert Trim(a) != "";
    assert FirstSkill(joined) == Trim(a);
    QueryIsSkillAndDeveloper(joined);
  }

  /** Splitting at the first comma of `a + rest`, where `a` has none and `rest` is empty or starts with one. */
  lemma FirstSegment(a: string, rest: string)
    requires !IsInfix(",", a)
    requires rest == [] || rest[0] == ','
    ensures SplitOn(a + rest, ",")[0] == a
  {
    var s := a + rest;
    CharInfixIff(',', a);
    assert s[..|a|] == a;
    SplitOnCharHead(s, ',', |a|);
  }

  /**
   * A match of `/\[.*?\]/` starts at `i`: a `[` followed, on the same line,
   * by some `]` (`.` matches every character except line terminators).
   */
  predicate MatchesAt(s: string, i: nat) {
    i < |s| && s[i] == '['
    && exists j :: i < j < |s| && s[j] == ']' && forall m :: i < m < j ==> !IsLineTerminator(s[m])
  }

  /**
   * The lazy `.*?` stops at the first `]`: the end of the match starting
   * before `k`, scanning from `k`, or `None` when a line terminator or the
   * end of the text comes first.
   */
  function CloseFrom(s: string, k: nat): (r: Option<nat>)
    ensures r.Some? ==> k <= r.value < |s| && s[r.value] == ']'
    ensures r.Some? ==> forall m :: k <= m < r.value ==> s[m] != ']' && !IsLineTerminator(s[m])
    ensures r.None? ==> forall j :: k <= j < |s| && s[j] == ']' ==> exists m :: k <= m < j && IsLineTerminator(s[m])
    decreases |s| - k
  {
    if k >= |s| then None
    else if s[k] == ']' then Some(k)
    else if IsLineTerminator(s[k]) then None
    else CloseFrom(s, k + 1)
  }

  /** The first match at or after position `i`, as the indices of its `[` and its `]`. */
  function SpanFrom(s: string, i: nat): (r: Option<(nat, nat)>)
    ensures r.Some? ==> i <= r.value.0 < r.value.1 < |s| && MatchesAt(s, r.value.0)
    ensures r.Some? ==> forall p :: i <= p < r.value.0 ==> !MatchesAt(s, p)
    ensures r.Some? ==> s[r.value.1] == ']'
    ensures r.Some? ==> forall m :: r.value.0 < m < r.value.1 ==> s[m] != ']' && !IsLineTerminator(s[m])
    ensures r.None? ==> forall p :: i <= p < |s| ==> !MatchesAt(s, p)
    decreases |s| - i
  {
    if i >= |s| then None
    else if s[i] == '[' && CloseFrom(s, i + 1).Some? then
      Some((i, CloseFrom(s, i + 1).value))
    else
      assert !MatchesAt(s, i);
      SpanFrom(s, i + 1)
  }

  /**
   * `content.match(/\[.*?\]/)?.[0]`: the leftmost match, from a `[` to the
   * first `]` after it, with no line terminator in between; `None` exactly
   * when the regular expression matches nowhere.
   */
  function BracketMatch(s: string): (r: Option<string>)
    ensures r.None? <==> forall p :: 0 <= p < |s| ==> !MatchesAt(s, p)
    ensures r.Some? ==> |r.value| >= 2 && r.value[0] == '[' && r.value[|r.value| - 1] == ']'
    ensures r.Some? ==> forall m :: 0 < m < |r.value| - 1 ==> r.value[m] != ']' && !IsLineTerminator(r.value[m])
    ensures r.Some? ==> exists i: nat ::
      (OccursAt(s, r.value, i) && MatchesAt(s, i) && forall p :: 0 <= p < i ==> !MatchesAt(s, p))
  {
    match SpanFrom(s, 0)
    case None => None
    case Some((i, j)) =>
      var m := s[i..j + 1];
      assert OccursAt(s, m, i);
      assert forall k :: 0 < k < |m| - 1 ==> m[k] == s[i + k];
      Some(m)
  }

  /**
   * A reply holding one single-line array, with no `[` before it, yields
   * exactly that array.
   */
  lemma BracketMatchOfReply(pre: string, inner: string, post: string)
    requires forall k :: 0 <= k < |pre| ==> pre[k] != '['
    requires forall k :: 0 <= k < |inner| ==> inner[k] != ']' && !IsLineTerminator(inner[k])
    ensures BracketMatch(pre + ("[" + inner + "]") + post) == Some("[" + inner + "]")
  {
    var arr := "[" + inner + "]";
    var s := pre + arr + post;
    var i := |pre|;
    var e := i + |inner| + 1;
    ReplyLayout(pre, inner, post);
    assert MatchesAt(s, i);
    var span := SpanFrom(s, 0);
    assert span.Some?;
    var (a, b) := span.value;
    assert a == i;
    assert b == e;
    assert s[i..e + 1] == arr;
  }

  /** Where the parts of `pre + ("[" + inner + "]") + post` stand. */
  lemma ReplyLayout(pre: string, inner: string, post: string)
    ensures var s := pre + ("[" + inner + "]") + post;
      |s| == |pre| + |inner| + 2 + |post|
      && (forall k :: 0 <= k < |pre| ==> s[k] == pre[k])
      && s[|pre|] == '[' && s[|pre| + |inner| + 1] == ']'
      && (forall m :: |pre| < m < |pre| + |inner| + 1 ==> s[m] == inner[m - |pre| - 1])
      && s[|pre|..|pre| + |inner| + 2] == "[" + inner + "]"
  {
  }

  /** A pretty-printed array spreads over several lines and is not matched. */
  lemma MultiLineArrayNotMatched(id: string)
    requires forall k :: 0 <= k < |id| ==> id[k] != '['
    ensures BracketMatch("[\n  " + id + "\n]") == None
  {
    var s := "[\n  " + id + "\n]";
    assert s[0] == '[' && s[1] == '\n';
    forall p | 0 < p < |s| ensures s[p] != '[' {
      if 4 <= p < 4 + |id| {
        assert s[p] == id[p - 4];
      }
    }
  }

  /** `a` is `b` with some elements left out, the rest in order. */
  predicate Subsequence<T(==)>(a: seq<T>, b: seq<T>)
    decreases |b|
  {
    a == [] || (b != [] && ((a[0] == b[0] && Subsequence(a[1..], b[1..])) || Subsequence(a, b[1..])))
  }

  lemma {:induction false} SubsequencePrefix<T>(a: seq<T>, b: seq<T>, n: nat)
    requires Subsequence(a, b) && n <= |a|
    ensures Subsequence(a[..n], b)
    decreases |b|
  {
    if n > 0 {
      if a[0] == b[0] && Subsequence(a[1..], b[1..]) {
        SubsequencePrefix(a[1..], b[1..], n - 1);
        assert a[..n][1..] == a[1..][..n - 1];
      } else {
        SubsequencePrefix(a, b[1..], n);
      }
    }
  }

  /** `xs.slice(0, n)`. */
  function Take<T>(xs: seq<T>, n: nat): (r: seq<T>)
    ensures |r| == (if |xs| <= n then |xs| else n) && r == xs[..|r|]
  {
    if |xs| <= n then xs else xs[..n]
  }

  lemma {:induction false} PrefixIsSubsequence<T>(xs: seq<T>, n: nat)
    requires n <= |xs|
    ensures Subsequence(xs[..n], xs)
    decreases n
  {
    if n > 0 {
      PrefixIsSubsequence(xs[1..], n - 1);
      assert xs[..n][1..] == xs[1..][..n - 1];
    }
  }

  /**
   * `allJobs.filter(job => suggestedIds.includes(job.id))`: the listed jobs,
   * in the order of `allJobs`.
   */
  function Filter(jobs: seq<ExternalJob>, ids: seq<string>): (r: seq<ExternalJob>)
    ensures |r| <= |jobs|
    ensures forall x :: x in r <==> x in jobs && x.id in ids
    ensures Subsequence(r, jobs)
  {
    if jobs == [] then []
    else
      var rest := Filter(jobs[1..], ids);
      if jobs[0].id in ids then
        assert forall x :: x in jobs <==> x == jobs[0] || x in jobs[1..];
        [jobs[0]] + rest
      else
        assert forall x :: x in jobs <==> x == jobs[0] || x in jobs[1..];
        assert Subsequence(rest, jobs[1..]);
        rest
  }

  /** Filtering a concatenation filters each part: every listed job is kept, in order, repeats included. */
  lemma {:induction false} FilterAppend(a: seq<ExternalJob>, b: seq<ExternalJob>, ids: seq<string>)
    ensures Filter(a + b, ids) == Filter(a, ids) + Filter(b, ids)
    decreases |a|
  {
    if a != [] {
      var head := if a[0].id in ids then [a[0]] else [];
      assert (a + b)[0] == a[0] && (a + b)[1..] == a[1..] + b;
      assert Filter(a + b, ids) == head + Filter(a[1..] + b, ids);
      assert Filter(a, ids) == head + Filter(a[1..], ids);
      FilterAppend(a[1..], b, ids);
    } else {
      assert a + b == b;
    }
  }

  /** One job is kept exactly when its id is listed. */
  lemma FilterSingleton(x: ExternalJob, ids: seq<string>)
    ensures Filter([x], ids) == if x.id in ids then [x] else []
  {
    assert [x][1..] == [];
  }

  /**
   * The selection once the AI has replied: with a bracket match, the first
   * three of the jobs whose id the parsed array lists, in the order of
   * `allJobs`, so every listed one when at most three are; a match that
   * fails to parse is an error; with no match, the first three jobs.
   */
  function Select(allJobs: seq<ExternalJob>, content: string, parseIds: string -> Result<seq<string>>)
    : (r: Result<seq<ExternalJob>>)
    ensures BracketMatch(content).None? ==> r == Ok(allJobs[..if |allJobs| < 3 then |allJobs| else 3])
    ensures BracketMatch(content).Some? && parseIds(BracketMatch(content).value).Err? ==>
      r == Err(parseIds(BracketMatch(content).value).message)
    ensures BracketMatch(content).Some? && parseIds(BracketMatch(content).value).Ok? ==>
      var ids := parseIds(BracketMatch(content).value).value;
      r.Ok? && |r.value| <= 3 && Subsequence(r.value, allJobs)
      && (forall x :: x in r.value ==> x in allJobs && x.id in ids)
      && (|Filter(allJobs, ids)| <= 3 ==> forall x :: x in allJobs && x.id in ids ==> x in r.value)
      && r == Ok(Take(Filter(allJobs, ids), 3))
  {
    match BracketMatch(content)
    case None => Ok(Take(allJobs, 3))
    case Some(m) =>
      match parseIds(m)
      case Err(e) => Err(e)
      case Ok(ids) =>
        var matched := Filter(allJobs, ids);
        var chosen := Take(matched, 3);
        SubsequencePrefix(matched, allJobs, |chosen|);
        assert forall x :: x in chosen ==> x in matched;
        Ok(chosen)
  }

  /** Whatever the reply, a selection is at most three of the jobs, in their order. */
  lemma SelectionIsSubsequence(allJobs: seq<ExternalJob>, content: string, parseIds: string -> Result<seq<string>>)
    ensures Select(allJobs, content, parseIds).Ok? ==>
      |Select(allJobs, content, parseIds).value| <= 3 && Subsequence(Select(allJobs, content, parseIds).value, allJobs)
  {
    if BracketMatch(content).None? {
      PrefixIsSubsequence(allJobs, if |allJobs| < 3 then |allJobs| else 3);
    }
  }

  /** The collaborators of a suggestion run. */
  datatype SuggestEnv = SuggestEnv(
    jobsApi: string -> Result<Response<JobsResult>>,   // the `/api/jobs` response for a query
    stringify: seq<ExternalJob> -> string,             // `JSON.stringify`
    chat: string -> Result<Option<Content>>,           // `ai.chat(prompt)`: a rejection, or the reply (`None` when falsy)
    parseIds: string -> Result<seq<string>>)           // `JSON.parse` of the id array

  /** How a run ends: no feedback; no jobs found; an error caught; or the suggestions. */
  datatype Outcome = NotReady | NoJobs | Failed(message: string) | Suggested(jobs: seq<ExternalJob>)

  /** The jobs found for the feedback's query. */
  function FetchedJobs(f: Feedback, env: SuggestEnv): Result<seq<ExternalJob>> {
    FetchJobs(env.jobsApi(SearchQuery(SkillsText(f))))
  }

  /** The end of a run once the AI has been asked: no reply is an error, otherwise the selection. */
  function Answer(all: seq<ExternalJob>, reply: Option<Content>, parseIds: string -> Result<seq<string>>)
    : (o: Outcome)
    ensures o.Failed? || o.Suggested?
    ensures reply.None? ==> o == Failed(NoReplyMessage)
    ensures o.Suggested? ==> |o.jobs| <= 3 && Subsequence(o.jobs, all)
  {
    match reply
    case None => Failed(NoReplyMessage)
    case Some(c) =>
      SelectionIsSubsequence(all, ContentText(c), parseIds);
      match Select(all, ContentText(c), parseIds)
      case Err(m) => Failed(m)
      case Ok(jobs) => Suggested(jobs)
  }

  /**
   * A run once the jobs have been fetched: an error is reported, an empty
   * list ends the run, and otherwise the AI sees the skills and the
   * serialised first ten jobs while the selection runs over all of them. A
   * rejected `ai.chat` is caught like any other error.
   */
  function AfterFetch(fetched: Result<seq<ExternalJob>>, cvSkills: string, env: SuggestEnv,
    prompt: (string, string) -> string): (o: Outcome)
    ensures o != NotReady
    ensures fetched.Err? ==> o == Failed(fetched.message)
    ensures o == NoJobs <==> fetched == Ok([])
    ensures fetched.Ok? && fetched.value != [] ==>
      var reply := env.chat(prompt(cvSkills, env.stringify(Take(fetched.value, 10))));
      (reply.Err? ==> o == Failed(reply.message))
      && (reply.Ok? ==> o == Answer(fetched.value, reply.value, env.parseIds))
    ensures o.Suggested? ==> fetched.Ok? && |o.jobs| <= 3 && Subsequence(o.jobs, fetched.value)
  {
    match fetched
    case Err(m) => Failed(m)
    case Ok(all) =>
      if |all| == 0 then NoJobs
      else
        match env.chat(prompt(cvSkills, env.stringify(Take(all, 10))))
        case Err(m) => Failed(m)
        case Ok(reply) => Answer(all, reply, env.parseIds)
  }

  /** One suggestion run, for any prompt template: nothing happens without feedback. */
  function Suggest(feedback: Option<Feedback>, env: SuggestEnv, prompt: (string, string) -> string): (o: Outcome)
    ensures feedback.None? <==> o == NotReady
    ensures feedback.Some? ==> o == AfterFetch(FetchedJobs(feedback.value, env), SkillsText(feedback.value), env, prompt)
  {
    match feedback
    case None => NotReady
    case Some(f) => AfterFetch(FetchedJobs(f, env), SkillsText(f), env, prompt)
  }

  /** Suggested jobs are at most three of the fetched ones, in their order. */
  lemma SuggestedFromFetched(feedback: Option<Feedback>, env: SuggestEnv, prompt: (string, string) -> string)
    requires Suggest(feedback, env, prompt).Suggested?
    ensures feedback.Some? && FetchedJobs(feedback.value, env).Ok?
    ensures var jobs := Suggest(feedback, env, prompt).jobs;
      |jobs| <= 3 && Subsequence(jobs, FetchedJobs(feedback.value, env).value)
  {
  }
}
