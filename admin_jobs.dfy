/**
 * app/routes/admin/jobs.tsx: job postings kept in the key-value store under
 * `job:<id>`, the list shown in the reverse of the listing's order, the
 * create form and deletion.
 * The store and `JSON.parse` are parameters; the identifier of a new job
 * (`generateUUID`) is given to the handler.
 */
module AdminJobs {
  import opened Wrappers
  import opened Text
  import Auth

  /** `{ title, company, description }`, the value stored for a job. */
  datatype JobData = JobData(title: string, company: string, description: string)

  /** `{ id, ...data }`: `id` is `undefined` when the key holds no colon. */
  datatype Job = Job(id: Option<string>, data: JobData)

  /** One `KVItem` of the listing. */
  datatype KVItem = KVItem(key: string, value: string)

  /** The write `kv.set` performs; the value is the job data the store serialises. */
  datatype KVWrite = KVWrite(key: string, value: JobData)

  const KeyPrefix := "job:"

  /** `` `job:${jobId}` ``. */
  function JobKey(id: string): string {
    KeyPrefix + id
  }

  predicate ColonFree(s: string) {
    forall k :: 0 <= k < |s| ==> s[k] != ':'
  }

  /** `key.split(":")[1]`. */
  function JobId(key: string): Option<string> {
    At(SplitOn(key, ":"), 1)
  }

  lemma ColonFreeSplit(s: string)
    requires ColonFree(s)
    ensures SplitOn(s, ":") == [s]
  {
    CharInfixIff(':', s);
    assert IndexOf(s, ":").None?;
  }

  /** The key of a job splits at the colon after `job`. */
  lemma SplitJobKey(id: string)
    ensures SplitOn(JobKey(id), ":") == ["job"] + SplitOn(id, ":")
  {
    var key := JobKey(id);
    assert OccursAt(key, ":", 3);
    assert !OccursAt(key, ":", 0) && !OccursAt(key, ":", 1) && !OccursAt(key, ":", 2) by {
      assert key[0] == 'j' && key[1] == 'o' && key[2] == 'b';
    }
    var i := IndexOf(key, ":").value;
    assert i == 3;
    SplitOnUnfold(key, ":", 3);
    assert key[..3] == "job" && key[4..] == id;
  }

  /** A colon-free identifier, such as a UUID, comes back from its key. */
  lemma JobIdRoundTrip(id: string)
    requires ColonFree(id)
    ensures JobId(JobKey(id)) == Some(id)
  {
    SplitJobKey(id);
    ColonFreeSplit(id);
  }

  /** An identifier holding a colon comes back cut at its first colon. */
  lemma JobIdStopsAtColon(head: string, tail: string)
    requires ColonFree(head)
    ensures JobId(JobKey(head + ":" + tail)) == Some(head)
  {
    var id := head + ":" + tail;
    SplitJobKey(id);
    assert id[..|head|] == head && id[|head|] == ':';
    SplitOnCharHead(id, ':', |head|);
  }

  /** `Array.prototype.reverse`: the last listed item first. */
  function Reverse<T>(s: seq<T>): (r: seq<T>)
    ensures |r| == |s|
    ensures forall i :: 0 <= i < |s| ==> r[i] == s[|s| - 1 - i]
  {
    if s == [] then [] else Reverse(s[1..]) + [s[0]]
  }

  /** `{ id, ...data }` for one listed item. */
  function ToJob(item: KVItem, data: JobData): Job {
    Job(JobId(item.key), data)
  }

  /** `jobItems.map(...)`: `None` as soon as one value does not parse, since `JSON.parse` throws. */
  function ParseJobs(items: seq<KVItem>, parse: string -> Option<JobData>): (r: Option<seq<Job>>)
    ensures r.Some? <==> forall i :: 0 <= i < |items| ==> parse(items[i].value).Some?
    ensures r.Some? ==> |r.value| == |items|
    ensures r.Some? ==> forall i :: 0 <= i < |items| ==> r.value[i] == ToJob(items[i], parse(items[i].value).value)
  {
    if items == [] then Some([])
    else
      match parse(items[0].value)
      case None => None
      case Some(data) =>
        match ParseJobs(items[1..], parse)
        case None =>
          assert forall i :: 1 <= i < |items| ==> items[i] == items[1..][i - 1];
          None
        case Some(rest) =>
          assert forall i :: 1 <= i < |items| ==> items[i] == items[1..][i - 1];
          Some([ToJob(items[0], data)] + rest)
  }

  /** `!title || !company || !description` fails: all three are non-empty, untrimmed. */
  predicate CanSubmit(title: string, company: string, description: string) {
    title != "" && company != "" && description != ""
  }

  /** `navigate("/auth?next=/admin/jobs")` once loading is over and the user is signed out. */
  function SignInRedirect(isLoading: bool, isAuthenticated: bool): (r: Option<string>)
    ensures r.Some? <==> !isLoading && !isAuthenticated
    ensures r.Some? ==> Auth.RedirectTarget(Auth.LocationSearch(r.value)) == "/admin/jobs"
  {
    Auth.LoginReturnsTo("/admin/jobs");
    if !isLoading && !isAuthenticated then Some(Auth.LoginUrl("/admin/jobs")) else None
  }

  /** `handleDeleteJob`: the key removed, only once confirmed. */
  function DeleteKey(jobId: string, confirmed: bool): (r: Option<string>)
    ensures r.Some? <==> confirmed
  {
    if confirmed then Some(JobKey(jobId)) else None
  }

  /** A confirmed deletion removes the key the job was read from. */
  lemma DeleteTargetsJob(jobId: string)
    requires ColonFree(jobId)
    ensures JobId(DeleteKey(jobId, true).value) == Some(jobId)
  {
    JobIdRoundTrip(jobId);
  }

  class AdminJobsPage {
    var jobs: seq<Job>
    var title: string
    var company: string
    var description: string

    constructor ()
      ensures jobs == [] && title == "" && company == "" && description == ""
    {
      jobs := [];
      title, company, description := "", "", "";
    }

    /**
     * `loadJobs`: nothing without a store or when the listing or a parse
     * throws; otherwise the jobs, last listed first.
     */
    method LoadJobs(hasStore: bool, listing: Result<seq<KVItem>>, parse: string -> Option<JobData>)
      modifies this
      ensures hasStore && listing.Ok? && ParseJobs(listing.value, parse).Some? ==>
        jobs == Reverse(ParseJobs(listing.value, parse).value)
      ensures !(hasStore && listing.Ok? && ParseJobs(listing.value, parse).Some?) ==> jobs == old(jobs)
      ensures title == old(title) && company == old(company) && description == old(description)
    {
      if !hasStore || listing.Err? {
        return;
      }
      var parsed := ParseJobs(listing.value, parse);
      if parsed.Some? {
        jobs := Reverse(parsed.value);
      }
    }

    /** The three inputs' `onChange`. */
    method SetFields(t: string, c: string, d: string)
      modifies this
      ensures title == t && company == c && description == d && jobs == old(jobs)
    {
      title, company, description := t, c, d;
    }

    /**
     * `handleSubmit` with the new job's identifier and whether the write
     * succeeded: no write when a field is empty; after a successful write
     * the fields are cleared and the list is reloaded (`reload`); after a
     * failed one the form keeps its values.
     */
    method Submit(jobId: string, written: bool) returns (write: Option<KVWrite>, reload: bool)
      modifies this
      ensures !CanSubmit(old(title), old(company), old(description)) ==>
        write.None? && !reload && title == old(title) && company == old(company) && description == old(description)
      ensures CanSubmit(old(title), old(company), old(description)) ==>
        write == Some(KVWrite(JobKey(jobId), JobData(old(title), old(company), old(description))))
      ensures CanSubmit(old(title), old(company), old(description)) && written ==>
        reload && title == "" && company == "" && description == ""
      ensures CanSubmit(old(title), old(company), old(description)) && !written ==>
        !reload && title == old(title) && company == old(company) && description == old(description)
      ensures jobs == old(jobs)
    {
      if !CanSubmit(title, company, description) {
        return None, false;
      }
      write := Some(KVWrite(JobKey(jobId), JobData(title, company, description)));
      reload := false;
      if written {
        title, company, description := "", "", "";
        reload := true;
      }
    }
  }

  /** A job written by the form is read back, with its identifier, by the next load. */
  lemma WrittenJobReadBack(jobId: string, data: JobData, text: string, parse: string -> Option<JobData>)
    requires ColonFree(jobId) && parse(text) == Some(data)
    ensures ParseJobs([KVItem(JobKey(jobId), text)], parse) == Some([Job(Some(jobId), data)])
  {
    JobIdRoundTrip(jobId);
    var items := [KVItem(JobKey(jobId), text)];
    assert items[1..] == [];
    assert ParseJobs(items[1..], parse) == Some([]);
    assert ToJob(items[0], data) == Job(Some(jobId), data);
    assert ParseJobs(items, parse) == Some([ToJob(items[0], data)] + []);
    assert [ToJob(items[0], data)] + [] == [Job(Some(jobId), data)];
  }
}
