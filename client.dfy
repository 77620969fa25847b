/** The browser client: one download session that submits a job, binds its id,
    polls the job's status once per timer tick, fetches the finished file once
    and reports progress in a status line. Network answers are parameters. */
module Client {
  import opened Common
  import Text

  const EnterUrl := "⚠️ Please enter a URL."
  const Starting := "⏳ Starting download..."
  const TrackingError := "❌ Error tracking progress."
  const FileError := "❌ Error fetching file"
  const Complete := "✅ Download complete! Refreshing in 5 seconds..."
  const UnknownError := "Unknown error"

  /** The status line while a job runs: an hourglass, the server's word, an ellipsis. */
  function Waiting(serverStatus: string): string {
    "⏳ " + serverStatus + "..."
  }

  /** The status line for a reported error. */
  function Failed(detail: string): string {
    "❌ Error: " + detail
  }

  /** The status line when the submission request itself throws. */
  function NetworkFailed(message: string): string {
    "❌ Network error: " + message
  }

  /** How a template string renders an optional JSON field. */
  function Rendered(field: Option<string>): string {
    field.GetOr("undefined")
  }

  /** The answer to `POST /download`: the request or its JSON parse threw, or a
      response with its `ok` flag and the body's `id` and `error` fields. */
  datatype SubmitResult = SubmitThrew(message: string)
                        | SubmitAnswer(ok: bool, id: Option<string>, error: Option<string>)

  /** The answer to `GET /progress/<id>`: the fetch or its JSON parse threw, or
      the body's `status`, `progress` and `error` fields. */
  datatype StatusFetch = StatusThrew | StatusAnswer(status: string, progress: real, error: Option<string>)

  /** The answer to `GET /file/<id>`: it threw, came back not ok, or came back
      ok with this `Content-Disposition` header (if any). */
  datatype FileFetch = FileThrew | FileNotOk | FileOk(contentDisposition: Option<string>)

  /** What one timer tick observes: the status answer and, used only when that
      answer says `completed`, the file answer. */
  datatype TickOutcome = TickOutcome(status: StatusFetch, file: FileFetch)

  /** The session's observable state: the status line, the progress number, the
      bound job id, whether the polling interval is live, and whether the page
      reload after a finished download has been scheduled. */
  datatype UiState = UiState(status: string, progress: real, downloadId: Option<string>,
                             pollingActive: bool, reloadScheduled: bool)

  const Initial := UiState("", 0.0, None, false, false)

  /** The status answer reports a completed job. */
  predicate Completes(f: StatusFetch) {
    f.StatusAnswer? && f.status == "completed"
  }

  /** The status answer reports a failed job. */
  predicate Fails(f: StatusFetch) {
    f.StatusAnswer? && f.status == "error"
  }

  /** The answers after which the interval is cleared. */
  predicate Terminal(f: StatusFetch) {
    Completes(f) || Fails(f)
  }

  /** The submission was accepted: an ok response carrying a non-empty id. */
  predicate Accepted(result: SubmitResult) {
    result.SubmitAnswer? && result.ok && Truthy(result.id)
  }

  /** The download button is disabled while a job is bound and has not reached 100. */
  predicate Disabled(s: UiState) {
    Truthy(s.downloadId) && s.progress < 100.0
  }

  const FilenameKey := "filename="
  const DefaultFilename := "download"

  /** The save-as name taken from a `Content-Disposition` header: the text after
      the first `filename=` up to the next one (`SecondPiece`), with every `"` removed; the
      literal `download` when the header is absent, has no `filename=`, or
      leaves nothing. The name is never empty and never holds a quote. */
  function SuggestedFilename(contentDisposition: Option<string>): (r: string)
    ensures r != "" && '"' !in r
    ensures contentDisposition.None? ==> r == DefaultFilename
    ensures contentDisposition.Some? && (forall k :: !Text.MatchAt(contentDisposition.value, FilenameKey, k)) ==>
              r == DefaultFilename
    ensures contentDisposition.Some? && Text.SecondPiece(contentDisposition.value, FilenameKey).Some? ==>
              var name := Text.RemoveChar(Text.SecondPiece(contentDisposition.value, FilenameKey).value, '"');
              r == if name == "" then DefaultFilename else name
  {
    match contentDisposition
    case None => DefaultFilename
    case Some(header) =>
      match Text.SecondPiece(header, FilenameKey)
      case None => DefaultFilename
      case Some(piece) =>
        var name := Text.RemoveChar(piece, '"');
        if name == "" then DefaultFilename else name
  }

  /** In `pre` + `filename=` + `v`, with no `=` in `pre` or `v`, the key occurs
      only where it was put: its `=` has nowhere else to come from. */
  lemma KeyOnlyAfterPrefix(pre: string, v: string, k: nat)
    requires '=' !in pre && '=' !in v
    requires Text.MatchAt(pre + FilenameKey + v, FilenameKey, k)
    ensures k == |pre|
  {
    var h := pre + FilenameKey + v;
    var n := |FilenameKey|;
    assert h[k..k + n][n - 1] == '=';
  }

  /** In such a header the first key is the one after `pre`, and no second one follows. */
  lemma KeyFoundAfterPrefix(pre: string, v: string)
    requires '=' !in pre && '=' !in v
    ensures Text.IndexOf(pre + FilenameKey + v, FilenameKey, 0) == Some(|pre|)
    ensures Text.IndexOf(pre + FilenameKey + v, FilenameKey, |pre| + |FilenameKey|).None?
  {
    var h := pre + FilenameKey + v;
    assert Text.MatchAt(h, FilenameKey, |pre|) by {
      assert h[|pre|..|pre| + |FilenameKey|] == FilenameKey;
    }
    var first := Text.IndexOf(h, FilenameKey, 0);
    if first != Some(|pre|) {
      KeyOnlyAfterPrefix(pre, v, first.value);
    }
    var second := Text.IndexOf(h, FilenameKey, |pre| + |FilenameKey|);
    if second.Some? {
      KeyOnlyAfterPrefix(pre, v, second.value);
    }
  }

  /** In such a header the piece after the key is all of `v`. */
  lemma PieceAfterPrefix(pre: string, v: string)
    requires '=' !in pre && '=' !in v
    ensures Text.SecondPiece(pre + FilenameKey + v, FilenameKey) == Some(v)
  {
    var h := pre + FilenameKey + v;
    var start := |pre| + |FilenameKey|;
    KeyFoundAfterPrefix(pre, v);
    assert Text.SecondPiece(h, FilenameKey) == Some(h[start..|h|]);
    assert h[start..|h|] == v;
  }

  /** A header `pre` + `filename=` + `v`, where neither `pre` nor `v` holds an
      `=`, names the file `v` without its quotes (or `download` if nothing is left). */
  lemma QuotedFilename(pre: string, v: string)
    requires '=' !in pre && '=' !in v
    ensures var name := Text.RemoveChar(v, '"');
            SuggestedFilename(Some(pre + FilenameKey + v)) == if name == "" then DefaultFilename else name
  {
    PieceAfterPrefix(pre, v);
  }

  /** A quoted name: `pre` + `filename="` + `name` + `"` saves as `name` itself
      when `name` is non-empty and holds no quote and no `=`; for example
      `attachment; filename="clip.mp4"` saves as `clip.mp4`. */
  lemma QuotedName(pre: string, name: string)
    requires '=' !in pre && '=' !in name && '"' !in name && name != ""
    ensures SuggestedFilename(Some(pre + FilenameKey + "\"" + name + "\"")) == name
  {
    var v := "\"" + name + "\"";
    assert pre + FilenameKey + "\"" + name + "\"" == pre + FilenameKey + v;
    QuotedFilename(pre, v);
    Text.RemoveCharAppend("\"" + name, "\"", '"');
    Text.RemoveCharAppend("\"", name, '"');
  }

  /** The name the completed download is saved under, when a tick gets that far. */
  function SavedAs(t: TickOutcome): (r: Option<string>)
    ensures r.Some? <==> Completes(t.status) && t.file.FileOk?
    ensures r.Some? ==> r.value != "" && '"' !in r.value
  {
    if Completes(t.status) && t.file.FileOk? then Some(SuggestedFilename(t.file.contentDisposition)) else None
  }

  /** One tick of the polling interval. A thrown status fetch only changes the
      status line and polling goes on. Any other answer sets the progress to the
      reported value and the status line to the waiting form of the reported
      word; `completed` then clears the interval, fetches the file once and
      reports the file's fate (scheduling the reload only when it arrived);
      `error` clears the interval and shows the reported error. */
  function TickStep(s: UiState, t: TickOutcome): (r: UiState)
    ensures r.downloadId == s.downloadId
    ensures t.status.StatusThrew? ==> r == s.(status := TrackingError)
    ensures t.status.StatusAnswer? ==> r.progress == t.status.progress
    ensures r.pollingActive <==> s.pollingActive && !Terminal(t.status)
    ensures t.status.StatusAnswer? && !Terminal(t.status) ==>
              r == s.(progress := t.status.progress, status := Waiting(t.status.status))
    ensures Fails(t.status) ==> r.status == Failed(Rendered(t.status.error)) && r.reloadScheduled == s.reloadScheduled
    ensures Completes(t.status) && t.file.FileThrew? ==> r.status == TrackingError && r.reloadScheduled == s.reloadScheduled
    ensures Completes(t.status) && t.file.FileNotOk? ==> r.status == FileError && r.reloadScheduled == s.reloadScheduled
    ensures Completes(t.status) && t.file.FileOk? ==> r.status == Complete && r.reloadScheduled
  {
    match t.status
    case StatusThrew => s.(status := TrackingError)
    case StatusAnswer(serverStatus, progress, error) =>
      var shown := s.(progress := progress, status := Waiting(serverStatus));
      if serverStatus == "completed" then
        var stopped := shown.(pollingActive := false);
        match t.file
        case FileThrew => stopped.(status := TrackingError)
        case FileNotOk => stopped.(status := FileError)
        case FileOk(_) => stopped.(status := Complete, reloadScheduled := true)
      else if serverStatus == "error" then
        shown.(pollingActive := false, status := Failed(Rendered(error)))
      else
        shown
  }

  /** Binding a job id: `setDownloadId`, and, when the id changed, the effect's
      cleanup clearing the previous interval followed by a new interval for the
      new id. An unchanged id re-runs nothing. */
  function Bind(s: UiState, id: string): UiState {
    if s.downloadId == Some(id) then s else s.(downloadId := Some(id), pollingActive := true)
  }

  /** A click on the download button. An empty URL only sets the warning: no
      request, id and progress untouched. Otherwise progress restarts at 0; an
      accepted answer binds its id (and leaves the button disabled), anything
      else keeps the previous id and shows the error. */
  function SubmitStep(s: UiState, url: string, result: SubmitResult): (r: UiState)
    ensures url == "" ==> r == s.(status := EnterUrl)
    ensures url != "" ==> r.progress == 0.0
    ensures url != "" && Accepted(result) ==> r.downloadId == Some(result.id.value) && Disabled(r)
    ensures url != "" && Accepted(result) ==>
              r.status == Starting && r.reloadScheduled == s.reloadScheduled
    ensures url != "" && Accepted(result) && s.downloadId != result.id ==> r.pollingActive
    ensures url != "" && Accepted(result) && s.downloadId == result.id ==> r.pollingActive == s.pollingActive
    ensures url != "" && result.SubmitThrew? ==> r == s.(progress := 0.0, status := NetworkFailed(result.message))
    ensures url != "" && result.SubmitAnswer? && !Accepted(result) ==>
              r == s.(progress := 0.0, status := Failed(if Truthy(result.error) then result.error.value else UnknownError))
  {
    if url == "" then s.(status := EnterUrl)
    else
      var starting := s.(status := Starting, progress := 0.0);
      match result
      case SubmitThrew(message) => starting.(status := NetworkFailed(message))
      case SubmitAnswer(ok, id, error) =>
        if ok && Truthy(id) then Bind(starting, id.value)
        else starting.(status := Failed(if Truthy(error) then error.value else UnknownError))
  }

  /** Ticks applied one after another while the interval is live (a cleared
      interval fires no more), with the number of file fetches they made. */
  function Poll(s: UiState, ticks: seq<TickOutcome>): (UiState, nat)
    decreases |ticks|
  {
    if ticks == [] || !s.pollingActive then (s, 0)
    else
      var rest := Poll(TickStep(s, ticks[0]), ticks[1..]);
      (rest.0, rest.1 + if Completes(ticks[0].status) then 1 else 0)
  }

  /** Whatever the server answers, a job's file is fetched at most once, and
      a fetch leaves the interval cleared. */
  lemma {:induction false} FileFetchedAtMostOnce(s: UiState, ticks: seq<TickOutcome>)
    ensures Poll(s, ticks).1 <= 1
    ensures Poll(s, ticks).1 == 1 ==> !Poll(s, ticks).0.pollingActive
    decreases |ticks|
  {
    if ticks != [] && s.pollingActive {
      var next := TickStep(s, ticks[0]);
      if Completes(ticks[0].status) {
        assert !next.pollingActive;
        assert Poll(next, ticks[1..]) == (next, 0);
      } else {
        FileFetchedAtMostOnce(next, ticks[1..]);
      }
    }
  }

  /** Polling never stops on its own before a terminal answer: thrown fetches
      and unrecognised words (`starting`, `queued`, ...) keep the interval
      live, fetch no file and leave the job id bound. */
  lemma {:induction false} PollingSurvivesNonTerminal(s: UiState, ticks: seq<TickOutcome>)
    requires s.pollingActive
    requires forall i :: 0 <= i < |ticks| ==> !Terminal(ticks[i].status)
    ensures Poll(s, ticks).0.pollingActive
    ensures Poll(s, ticks).1 == 0
    ensures Poll(s, ticks).0.downloadId == s.downloadId
    decreases |ticks|
  {
    if ticks != [] {
      assert !Terminal(ticks[0].status);
      PollingSurvivesNonTerminal(TickStep(s, ticks[0]), ticks[1..]);
    }
  }

  /** The download button stays disabled while a bound job is polled and
      every answer reports less than 100: only a reported 100 (or more)
      enables it again. */
  lemma {:induction false} StaysDisabledBelowHundred(s: UiState, ticks: seq<TickOutcome>)
    requires Disabled(s)
    requires forall i :: 0 <= i < |ticks| && ticks[i].status.StatusAnswer? ==> ticks[i].status.progress < 100.0
    ensures Disabled(Poll(s, ticks).0)
    decreases |ticks|
  {
    if ticks != [] && s.pollingActive {
      assert ticks[0].status.StatusAnswer? ==> ticks[0].status.progress < 100.0;
      StaysDisabledBelowHundred(TickStep(s, ticks[0]), ticks[1..]);
    }
  }

  /** A run with a network failure in the middle: `queued` at 10, `downloading`
      at 55, a thrown fetch, `downloading` at 80, then `completed` with the file
      arriving. Polling survives the failure, the file is fetched exactly once
      at the end, and the reload is scheduled. */
  lemma TransientFailureRun(id: string)
    requires id != ""
    ensures var ticks := [TickOutcome(StatusAnswer("queued", 10.0, None), FileThrew),
                          TickOutcome(StatusAnswer("downloading", 55.0, None), FileThrew),
                          TickOutcome(StatusThrew, FileThrew),
                          TickOutcome(StatusAnswer("downloading", 80.0, None), FileThrew),
                          TickOutcome(StatusAnswer("completed", 100.0, None), FileOk(None))];
            var s := Bind(Initial, id);
            Poll(s, ticks) == (UiState(Complete, 100.0, Some(id), false, true), 1)
  {
  }

  /** One browser session of the page: the state cells `status`, `progress`
      and `downloadId`, whether the polling interval is live, and whether the
      reload after a finished download is pending. `fileFetches` counts the
      file requests made for the bound job. */
  class Session {
    var status: string
    var progress: real
    var downloadId: Option<string>
    var pollingActive: bool
    var reloadScheduled: bool
    ghost var fileFetches: nat

    /** A live interval always polls the bound (non-empty) id and has not yet
        fetched its file; no job's file is fetched twice. */
    ghost predicate Valid()
      reads this
    {
      && (downloadId.Some? ==> downloadId.value != "")
      && (pollingActive ==> downloadId.Some? && fileFetches == 0)
      && fileFetches <= 1
    }

    function State(): UiState
      reads this
    {
      UiState(status, progress, downloadId, pollingActive, reloadScheduled)
    }

    /** A freshly loaded page: empty status, progress 0, no job, no interval. */
    constructor ()
      ensures Valid() && State() == Initial && fileFetches == 0
    {
      status := "";
      progress := 0.0;
      downloadId := None;
      pollingActive := false;
      reloadScheduled := false;
      fileFetches := 0;
    }

    /** Binds `id`; a changed id replaces the interval: the previous one is
        cleared and a new one, with no file fetched yet, polls `id`. */
    method BindJob(id: string)
      requires Valid() && id != ""
      modifies this
      ensures Valid()
      ensures State() == Bind(old(State()), id)
      ensures fileFetches == if old(downloadId) == Some(id) then old(fileFetches) else 0
    {
      if downloadId != Some(id) {
        downloadId := Some(id);
        pollingActive := true;
        fileFetches := 0;
      }
    }

    /** `handleDownload`: `requested` tells whether a request was sent. */
    method HandleDownload(url: string, result: SubmitResult) returns (requested: bool)
      requires Valid()
      modifies this
      ensures Valid()
      ensures requested <==> url != ""
      ensures State() == SubmitStep(old(State()), url, result)
    {
      if url == "" {
        status := EnterUrl;
        return false;
      }
      status := Starting;
      progress := 0.0;
      requested := true;
      match result
      case SubmitThrew(message) =>
        status := NetworkFailed(message);
      case SubmitAnswer(ok, id, error) =>
        if ok && Truthy(id) {
          BindJob(id.value);
        } else {
          status := Failed(if Truthy(error) then error.value else UnknownError);
        }
    }

    /** The interval's callback, which only fires while the interval is live.
        `savedAs` is the name the fetched file is saved under. */
    method Tick(t: TickOutcome) returns (savedAs: Option<string>)
      requires Valid() && pollingActive
      modifies this
      ensures Valid()
      ensures State() == TickStep(old(State()), t)
      ensures fileFetches == old(fileFetches) + if Completes(t.status) then 1 else 0
      ensures savedAs == SavedAs(t)
    {
      savedAs := None;
      match t.status
      case StatusThrew =>
        status := TrackingError;
      case StatusAnswer(serverStatus, reported, error) =>
        progress := reported;
        status := Waiting(serverStatus);
        if serverStatus == "completed" {
          pollingActive := false;
          fileFetches := fileFetches + 1;
          match t.file
          case FileThrew =>
            status := TrackingError;
          case FileNotOk =>
            status := FileError;
          case FileOk(header) =>
            savedAs := Some(SuggestedFilename(header));
            status := Complete;
            reloadScheduled := true;
        }
        if serverStatus == "error" {
          pollingActive := false;
          status := Failed(Rendered(error));
        }
    }
  }
}
