/**
 * app/lib/jobs-api.ts: turning the job-search API's answer into
 * `ExternalJob` records, and the two fetch helpers' outcomes. The HTTP
 * requests themselves are given by their responses; the request URLs
 * (`encodeURIComponent`) are not modelled.
 */
module JobsApi {
  import opened Wrappers
  import opened Text

  /** One element of `result.data`, with the members the mapping reads (absent members are `None`). */
  datatype RawJob = RawJob(
    jobId: Option<string>,
    jobTitle: Option<string>,
    employerName: Option<string>,
    jobCity: Option<string>,
    jobCountry: Option<string>,
    jobDescription: Option<string>,
    qualifications: Option<seq<string>>,
    applyLink: Option<string>,
    googleLink: Option<string>,
    employmentType: Option<string>,
    postedAt: Option<string>)

  /** `ExternalJob`. */
  datatype ExternalJob = ExternalJob(
    id: string,
    title: string,
    company: string,
    location: Option<string>,
    description: Option<string>,
    url: Option<string>,
    employmentType: Option<string>,
    datePosted: Option<string>)

  /** `a && b ? x : y` and `a || b || d` on optional strings. */
  function FirstTruthy(a: Option<string>, b: Option<string>, d: string): (r: string)
    ensures Truthy(a) ==> r == a.value
    ensures !Truthy(a) && Truthy(b) ==> r == b.value
    ensures !Truthy(a) && !Truthy(b) ==> r == d
  {
    OrElse(a, OrElse(b, d))
  }

  /** `job.job_highlights?.Qualifications?.[0]`. */
  function FirstQualification(q: Option<seq<string>>): (r: Option<string>)
    ensures r.Some? <==> q.Some? && |q.value| > 0
    ensures r.Some? ==> r.value == q.value[0]
  {
    match q
    case None => None
    case Some(list) => At(list, 0)
  }

  function Location(job: RawJob): (r: string)
    ensures Truthy(job.jobCity) && Truthy(job.jobCountry) ==> r == job.jobCity.value + ", " + job.jobCountry.value
    ensures !(Truthy(job.jobCity) && Truthy(job.jobCountry)) ==> r == OrElse(job.jobCountry, "Remote")
  {
    if Truthy(job.jobCity) && Truthy(job.jobCountry) then job.jobCity.value + ", " + job.jobCountry.value
    else OrElse(job.jobCountry, "Remote")
  }

  /** The element at `index` of `result.data`; `now` is `new Date().toISOString()`. */
  function MapJob(job: RawJob, index: nat, now: string): (r: ExternalJob)
    ensures r.id == OrElse(job.jobId, "job-" + NatToString(index))
    ensures r.title == OrElse(job.jobTitle, "Untitled") && r.company == OrElse(job.employerName, "Unknown Company")
    ensures r.location == Some(Location(job))
    ensures r.description == Some(FirstTruthy(job.jobDescription, FirstQualification(job.qualifications), "No description"))
    ensures r.url == Some(FirstTruthy(job.applyLink, job.googleLink, "#"))
    ensures r.employmentType == Some(OrElse(job.employmentType, "Full-time"))
    ensures r.datePosted == Some(OrElse(job.postedAt, now))
  {
    ExternalJob(
      OrElse(job.jobId, "job-" + NatToString(index)),
      OrElse(job.jobTitle, "Untitled"),
      OrElse(job.employerName, "Unknown Company"),
      Some(Location(job)),
      Some(FirstTruthy(job.jobDescription, FirstQualification(job.qualifications), "No description")),
      Some(FirstTruthy(job.applyLink, job.googleLink, "#")),
      Some(OrElse(job.employmentType, "Full-time")),
      Some(OrElse(job.postedAt, now)))
  }

  /** `(result.data || []).map(...)` over the elements from position `from` on. */
  function MapFrom(data: seq<RawJob>, from: nat, now: string): (r: seq<ExternalJob>)
    requires from <= |data|
    ensures |r| == |data| - from
    ensures forall i :: 0 <= i < |r| ==> r[i] == MapJob(data[from + i], from + i, now)
    decreases |data| - from
  {
    if from == |data| then [] else [MapJob(data[from], from, now)] + MapFrom(data, from + 1, now)
  }

  /** The mapping: one job per element, in order, each from its own element and index; no `data` gives []. */
  function MapJobs(data: Option<seq<RawJob>>, now: string): (r: seq<ExternalJob>)
    ensures data.None? ==> r == []
    ensures data.Some? ==>
      (|r| == |data.value| && forall i :: 0 <= i < |r| ==> r[i] == MapJob(data.value[i], i, now))
  {
    match data
    case None => []
    case Some(list) => MapFrom(list, 0, now)
  }

  /** Jobs without a `job_id` get distinct placeholder ids. */
  lemma PlaceholderIdsDistinct(data: seq<RawJob>, now: string, i: nat, j: nat)
    requires i < j < |data| && !Truthy(data[i].jobId) && !Truthy(data[j].jobId)
    ensures MapJobs(Some(data), now)[i].id != MapJobs(Some(data), now)[j].id
  {
    var r := MapJobs(Some(data), now);
    if r[i].id == r[j].id {
      assert "job-" + NatToString(i) == "job-" + NatToString(j);
      assert NatToString(i) == ("job-" + NatToString(i))[4..];
      NatToStringInjective(i, j);
    }
  }

  /** An HTTP response: `ok`, `status`, `statusText`, and what `response.json()` yields or throws. */
  datatype Response<T> = Response(ok: bool, status: int, statusText: string, body: Result<T>)

  /** The members of the search API's JSON the mapping reads. */
  datatype SearchResult = SearchResult(data: Option<seq<RawJob>>)

  const MissingKey := "RAPIDAPI_KEY is not set in environment variables"

  /**
   * `fetchJobsFromRapidAPI`: a missing key throws before any request; a
   * thrown `fetch`, a non-ok response or a failing `json()` is rethrown;
   * otherwise the mapped jobs.
   */
  function FetchJobsFromRapidApi(apiKey: Option<string>, response: Result<Response<SearchResult>>, now: string)
    : (r: Result<seq<ExternalJob>>)
    ensures !Truthy(apiKey) ==> r == Err(MissingKey)
    ensures Truthy(apiKey) && response.Err? ==> r == Err(response.message)
    ensures Truthy(apiKey) && response.Ok? && !response.value.ok ==>
      r == Err("RapidAPI request failed: " + IntToString(response.value.status) + " " + response.value.statusText)
    ensures Truthy(apiKey) && response.Ok? && response.value.ok && response.value.body.Err? ==>
      r == Err(response.value.body.message)
    ensures Truthy(apiKey) && response.Ok? && response.value.ok && response.value.body.Ok? ==>
      r == Ok(MapJobs(response.value.body.value.data, now))
    ensures r.Ok? ==>
      (response.Ok? && response.value.ok && response.value.body.Ok?
       && r.value == MapJobs(response.value.body.value.data, now))
  {
    if !Truthy(apiKey) then Err(MissingKey)
    else
      match response
      case Err(m) => Err(m)
      case Ok(resp) =>
        if !resp.ok then Err("RapidAPI request failed: " + IntToString(resp.status) + " " + resp.statusText)
        else
          match resp.body
          case Err(m) => Err(m)
          case Ok(result) => Ok(MapJobs(result.data, now))
  }

  /** Without a key the outcome does not depend on the response: no request is made. */
  lemma MissingKeyMakesNoRequest(apiKey: Option<string>, a: Result<Response<SearchResult>>,
    b: Result<Response<SearchResult>>, now: string)
    requires !Truthy(apiKey)
    ensures FetchJobsFromRapidApi(apiKey, a, now) == FetchJobsFromRapidApi(apiKey, b, now)
  {
  }

  /** The members of the application's own `/api/jobs` answer. */
  datatype JobsResult = JobsResult(jobs: Option<seq<ExternalJob>>)

  /** `fetchJobs`: a non-ok response throws; otherwise `data.jobs || []`. */
  function FetchJobs(response: Result<Response<JobsResult>>): (r: Result<seq<ExternalJob>>)
    ensures response.Ok? && !response.value.ok ==>
      r == Err("Failed to fetch jobs: " + IntToString(response.value.status))
    ensures response.Ok? && response.value.ok && response.value.body.Ok? ==>
      r == Ok(response.value.body.value.jobs.GetOr([]))
    ensures response.Err? ==> r == Err(response.message)
    ensures response.Ok? && response.value.ok && response.value.body.Err? ==> r == Err(response.value.body.message)
    ensures r.Ok? ==> response.Ok? && response.value.ok
  {
    match response
    case Err(m) => Err(m)
    case Ok(resp) =>
      if !resp.ok then Err("Failed to fetch jobs: " + IntToString(resp.status))
      else
        match resp.body
        case Err(m) => Err(m)
        case Ok(result) => Ok(result.jobs.GetOr([]))
  }
}
