/** The background-job server: a table from job id to progress entry, filled
    by job submission, by yt-dlp's progress hook and by each job's final outcome. */
module JobServer {
  import opened Common
  import opened YtDlp
  import Text

  /** One value of the progress table: `{'progress': p, 'status': s}`, plus
      `'error'` once the job has failed. */
  datatype Entry = Entry(progress: real, status: string, error: Option<string>)

  /** The arguments the submission hands to the job's thread. */
  datatype Job = Job(id: string, url: string, folder: string,
                     downloadType: Option<string>, resolution: Option<string>, filename: Option<string>)

  /** A dictionary yt-dlp passes to the progress hook: its `status` and, when
      present, its `_percent_str`. */
  datatype HookEvent = HookEvent(status: string, percentStr: Option<string>)

  /** What yt-dlp did for one job: the hook events it raised, then how `download` ended. */
  datatype JobRun = JobRun(events: seq<HookEvent>, outcome: RunOutcome)

  const Fresh := Entry(0.0, "starting", None)

  /** The text the hook hands to `float`: the reported percentage (`'0.0%'`
      when absent) with every `%` removed and surrounding whitespace stripped. */
  function PercentText(percentStr: Option<string>): (r: string)
    ensures '%' !in r
    ensures percentStr.None? ==> r == "0.0"
    ensures percentStr.Some? ==> r == Text.Strip(Text.RemoveChar(percentStr.value, '%'))
  {
    var raw := percentStr.GetOr("0.0%");
    DefaultPercentText();
    Text.Strip(Text.RemoveChar(raw, '%'))
  }

  /** The default `'0.0%'` becomes `0.0`. */
  lemma DefaultPercentText()
    ensures Text.Strip(Text.RemoveChar("0.0%", '%')) == "0.0"
  {
    var digits := "0.0";
    assert Text.RemoveChar("%", '%') == [];
    assert Text.RemoveChar(".0%", '%') == ".0" by {
      assert Text.RemoveChar("0%", '%') == "0" by { assert "0%"[1..] == "%"; }
      assert ".0%"[1..] == "0%";
    }
    assert "0.0%"[1..] == ".0%";
    assert Text.RemoveChar("0.0%", '%') == digits;
    assert forall k :: 0 <= k < |digits| ==> !Text.IsSpace(digits[k]);
  }

  /** The progress hook's effect on the job's entry. `parseFloat` stands for
      Python's `float`, `None` being a `ValueError`. */
  function ApplyHook(e: Entry, ev: HookEvent, parseFloat: string -> Option<real>): (r: Entry)
    ensures r.error == e.error
    ensures ev.status == "downloading" ==>
              r.status == e.status && r.progress == parseFloat(PercentText(ev.percentStr)).GetOr(0.0)
    ensures ev.status == "finished" ==> r == e.(progress := 100.0, status := "completed")
    ensures ev.status != "downloading" && ev.status != "finished" ==> r == e
  {
    if ev.status == "downloading" then
      match parseFloat(PercentText(ev.percentStr))
      case Some(p) => e.(progress := p)
      case None => e.(progress := 0.0)
    else if ev.status == "finished" then
      e.(progress := 100.0, status := "completed")
    else
      e
  }

  /** The entry after the hook has seen every event of `events`, in order. */
  function ApplyHooks(e: Entry, events: seq<HookEvent>, parseFloat: string -> Option<real>): Entry
    decreases |events|
  {
    if events == [] then e
    else ApplyHook(ApplyHooks(e, events[..|events| - 1], parseFloat), events[|events| - 1], parseFloat)
  }

  /** Some event of `events` reports a finished file. */
  predicate AnyFinished(events: seq<HookEvent>) {
    exists i :: 0 <= i < |events| && events[i].status == "finished"
  }

  /** The hook only writes `'completed'` into the status: after a run of
      events the status is `'completed'` exactly when one of them reported a
      finished file, and otherwise it is what it was; the error field is never touched. */
  lemma {:induction false} HooksSetStatus(e: Entry, events: seq<HookEvent>, parseFloat: string -> Option<real>)
    ensures ApplyHooks(e, events, parseFloat).status == if AnyFinished(events) then "completed" else e.status
    ensures ApplyHooks(e, events, parseFloat).error == e.error
    decreases |events|
  {
    if events != [] {
      var front, last := events[..|events| - 1], events[|events| - 1];
      HooksSetStatus(e, front, parseFloat);
      if AnyFinished(front) {
        var i :| 0 <= i < |front| && front[i].status == "finished";
        assert events[i] == front[i];
      }
      if AnyFinished(events) && last.status != "finished" {
        var i :| 0 <= i < |events| && events[i].status == "finished";
        assert front[i] == events[i];
      }
    }
  }

  /** The entry a job leaves behind: its status goes to `'downloading'`, the
      hook events apply, and then a normal end sets `'completed'` while an
      exception sets `'error'` and records the exception's text. The progress
      is the last one the hook wrote; only a failure touches the error field. */
  function JobResult(start: Entry, run: JobRun, parseFloat: string -> Option<real>): (r: Entry)
    ensures run.outcome.Finished? ==> r.status == "completed"
    ensures run.outcome.Raised? ==> r.status == "error" && r.error == Some(run.outcome.message)
    ensures run.outcome.Finished? ==> r.error == start.error
    ensures r.progress == ApplyHooks(start.(status := "downloading"), run.events, parseFloat).progress
  {
    var afterHooks := ApplyHooks(start.(status := "downloading"), run.events, parseFloat);
    HooksSetStatus(start.(status := "downloading"), run.events, parseFloat);
    match run.outcome
    case Finished => afterHooks.(status := "completed")
    case Raised(message) => afterHooks.(status := "error", error := Some(message))
  }

  /** While yt-dlp runs, the entry reads `downloading`: after any prefix of
      the hook events the status is `downloading` unless a `finished` event
      came first, and then it is `completed`. */
  lemma {:induction false} StatusWhileRunning(start: Entry, events: seq<HookEvent>, n: nat,
                                              parseFloat: string -> Option<real>)
    requires n <= |events|
    ensures ApplyHooks(start.(status := "downloading"), events[..n], parseFloat).status ==
              if AnyFinished(events[..n]) then "completed" else "downloading"
    ensures ApplyHooks(start.(status := "downloading"), events[..n], parseFloat).error == start.error
  {
    HooksSetStatus(start.(status := "downloading"), events[..n], parseFloat);
  }

  /** The job lifecycle: a job submitted as `starting` ends `completed` or
      `error`, carries an error message exactly when it failed, keeps progress 0
      when yt-dlp reported nothing, and shows 100 when the last report was a
      finished file. */
  lemma Lifecycle(run: JobRun, parseFloat: string -> Option<real>)
    ensures JobResult(Fresh, run, parseFloat).status in {"completed", "error"}
    ensures JobResult(Fresh, run, parseFloat).error.Some? <==> run.outcome.Raised?
    ensures run.events == [] ==> JobResult(Fresh, run, parseFloat).progress == 0.0
    ensures run.events != [] && run.events[|run.events| - 1].status == "finished" ==>
              JobResult(Fresh, run, parseFloat).progress == 100.0
  {
  }

  /** The module-level `progress_dict` and the folder jobs save into by default. */
  class JobTable {
    var jobs: map<string, Entry>
    const downloadsFolder: string

    /** An empty table; `downloadsFolder` is `~/Downloads` expanded. */
    constructor (downloadsFolder: string)
      ensures jobs == map[] && this.downloadsFolder == downloadsFolder
    {
      jobs := map[];
      this.downloadsFolder := downloadsFolder;
    }

    /** `GET /api/progress/<id>`: the stored entry, or nothing (`{}`) for an unknown id. */
    function GetProgress(id: string): (r: Option<Entry>)
      reads this
      ensures r.Some? <==> id in jobs
      ensures r.Some? ==> r.value == jobs[id]
    {
      if id in jobs then Some(jobs[id]) else None
    }

    /** `POST /api/download`. `freshId` stands for `str(uuid.uuid4())`, a key not
        yet in the table. Without a URL the answer is 400 and nothing changes;
        otherwise the new id maps to a fresh `starting` entry, every other entry
        is kept, and the job's thread receives its arguments. */
    method Submit(req: DownloadRequest, freshId: string) returns (resp: Response, job: Option<Job>)
      requires freshId !in jobs
      modifies this
      ensures UrlMissing(req) ==> resp == MissingUrl && job == None && jobs == old(jobs)
      ensures !UrlMissing(req) ==> resp == Response(200, Success(Some(freshId)))
      ensures !UrlMissing(req) ==> jobs == old(jobs)[freshId := Fresh] && freshId !in old(jobs)
      ensures !UrlMissing(req) ==>
                job == Some(Job(freshId, req.url.value,
                                if Truthy(req.folder) then req.folder.value else downloadsFolder,
                                req.downloadType, req.resolution, req.filename))
    {
      var folder := if Truthy(req.folder) then req.folder.value else downloadsFolder;
      if UrlMissing(req) {
        return MissingUrl, None;
      }
      jobs := jobs[freshId := Fresh];
      job := Some(Job(freshId, req.url.value, folder, req.downloadType, req.resolution, req.filename));
      resp := Response(200, Success(Some(freshId)));
    }

    /** The progress hook, called by yt-dlp with one event for job `id`. */
    method ProgressHook(id: string, ev: HookEvent, parseFloat: string -> Option<real>)
      requires id in jobs
      modifies this
      ensures jobs == old(jobs)[id := ApplyHook(old(jobs)[id], ev, parseFloat)]
    {
      var percentText := PercentText(ev.percentStr);
      if ev.status == "downloading" {
        match parseFloat(percentText)
        case Some(p) =>
          jobs := jobs[id := jobs[id].(progress := p)];
        case None =>
          jobs := jobs[id := jobs[id].(progress := 0.0)];
      } else if ev.status == "finished" {
        jobs := jobs[id := jobs[id].(progress := 100.0, status := "completed")];
      }
    }

    /** The job thread's first step: job `id` reads `downloading` before
        yt-dlp starts; its progress and error are kept and no other entry changes. */
    method MarkDownloading(id: string)
      requires id in jobs
      modifies this
      ensures jobs == old(jobs)[id := old(jobs)[id].(status := "downloading")]
    {
      jobs := jobs[id := jobs[id].(status := "downloading")];
    }

    /** yt-dlp's side of a download: it calls the progress hook of job `id`
        once per event, in order. */
    method RunHooks(id: string, events: seq<HookEvent>, parseFloat: string -> Option<real>)
      requires id in jobs
      modifies this
      ensures jobs == old(jobs)[id := ApplyHooks(old(jobs)[id], events, parseFloat)]
    {
      var i := 0;
      while i < |events|
        invariant 0 <= i <= |events|
        invariant jobs == old(jobs)[id := ApplyHooks(old(jobs)[id], events[..i], parseFloat)]
      {
        assert events[..i + 1][..i] == events[..i];
        ProgressHook(id, events[i], parseFloat);
        i := i + 1;
      }
      assert events[..i] == events;
    }

    /** The job thread's effect on the table: mark the entry `downloading`,
        let yt-dlp raise its hook events, then record how the download ended.
        Only the job's own entry changes: the map update leaves every other key
        as it was. The options the thread hands to yt-dlp are `OptionsFor` of
        the job's folder, type, resolution and file name. */
    method DownloadVideo(id: string, run: JobRun, parseFloat: string -> Option<real>)
      requires id in jobs
      modifies this
      ensures jobs == old(jobs)[id := JobResult(old(jobs)[id], run, parseFloat)]
    {
      MarkDownloading(id);
      RunHooks(id, run.events, parseFloat);
      match run.outcome
      case Finished =>
        jobs := jobs[id := jobs[id].(status := "completed")];
      case Raised(message) =>
        jobs := jobs[id := jobs[id].(status := "error", error := Some(message))];
    }
  }
}
