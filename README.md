# Video/audio downloader: job protocol model

The downloader has a React page (`client/src/App.jsx`) that submits a URL to a
Flask server. It then polls the job's status once a second and fetches the
finished file. The server comes in two versions:

- `server/app.py` keeps a table of background jobs. The table is filled by
  submission, by yt-dlp's progress hook and by each job's final outcome.
- `server/appbkk.py` is an older endpoint that runs the download inside the
  request.

This project models that protocol in Dafny, with the network, the browser and
yt-dlp described by outcome values:

- `common.dfy`: optional values, and the truthiness of an optional string
  that Python and JavaScript share.
- `text.dfy`: string helpers with the semantics of the built-ins the code uses:
  - JavaScript `split(sep)[1]`;
  - `replace` of every occurrence of one character;
  - Python `str.strip`, with `str.isspace`'s whitespace set.
- `ytdlp.dfy`: what both Flask handlers share:
  - the request and response values;
  - the format selection;
  - the output template;
  - the options dictionary handed to yt-dlp.
- `job_server.dfy`: the `app.py` server.
  - `progress_dict` becomes a class `JobTable` with a `map<string, Entry>` field.
  - Its methods (submission, progress hook, job thread) are proved against
    specification functions (`ApplyHook`, `ApplyHooks`, `JobResult`).
  - Lemmas about those functions state the job lifecycle.
- `legacy_server.dfy`: the `appbkk.py` handler, as a pure function from
  request and download outcome to response.
- `client.dfy`: the page.
  - Its state cells become a class `Session`, and `handleDownload` and the
    interval callback become methods.
  - Each method is proved equal to a transition function on a `UiState` value
    (`SubmitStep`, `TickStep`).
  - `Poll` runs ticks while the interval is live and counts file fetches.
  - Lemmas over `Poll` state the "file fetched at most once", "polling
    survives failures" and "button stays disabled" properties.
  - `SuggestedFilename` is the `Content-Disposition` parser.

## Model

| member | source | states |
|---|---|---|
| Text.IndexOf | client/src/App.jsx:77 | The result is the first position at or after `from` where the separator occurs; absent exactly when it occurs nowhere from there on |
| Text.SecondPiece | client/src/App.jsx:77 | `split(sep)[1]` is absent exactly when `sep` never occurs; otherwise it is the text that starts right after the first occurrence and ends at the next occurrence, or at the end of the text when there is none |
| Text.PieceHoldsNoSeparator | client/src/App.jsx:77 | The piece after the first separator contains no occurrence of the separator anywhere inside it |
| Text.RemoveChar | client/src/App.jsx:77 | `replace(/"/g, "")` leaves no quote, keeps every other character and nothing else, never lengthens, and is the identity on quote-free text |
| Text.RemoveCharAppend | client/src/App.jsx:77 | Removing a character from a concatenation is the concatenation of the two removals |
| Text.TrimStart | server/app.py:79 | Leading whitespace is dropped: the result is a suffix of the input, everything cut is whitespace, and the result does not start with whitespace |
| Text.TrimEnd | server/app.py:79 | Trailing whitespace is dropped: the result is a prefix of the input, everything cut is whitespace, and the result does not end with whitespace |
| Text.Strip | server/app.py:79 | `strip()` is the middle slice of the text left after cutting only whitespace from the start and the end, with no whitespace left at either end; whitespace-free text comes back unchanged |
| YtDlp.FormatSelection | server/app.py:64-75 | `audio` gives `bestaudio` with an mp3/192 extractor and no merge format; otherwise `bestvideo[height<=r]+bestaudio/best` for a non-empty resolution r or `bestvideo+bestaudio/best`, with no post-processor and merge format `mp4` |
| YtDlp.PathJoin | server/app.py:62 | `os.path.join`: the result ends with the second part; an absolute second part replaces the first; otherwise the result is the first part, then one `/` only when the first part is non-empty and does not already end in `/`, then the second part |
| YtDlp.OutputTemplate | server/app.py:61-62 | A requested name that secures to non-empty text gives `folder/<secured>.%(ext)s`; otherwise `folder/%(title)s.%(ext)s`; it always ends in `.%(ext)s` |
| YtDlp.OptionsFor | server/app.py:89-97 | The options carry the output template, the format selection, `quiet` and the `android` client |
| JobServer.PercentText | server/app.py:79 | The text handed to `float` is the percent string with every `%` removed and then stripped; it has no `%`, and is `0.0` when the event has no percent string |
| JobServer.DefaultPercentText | server/app.py:79 | The default `0.0%` becomes `0.0` once the `%` is removed and the text is stripped |
| JobServer.ApplyHook | server/app.py:77-87 | `downloading` sets progress to the parsed percent (0 when it does not parse) and keeps the status; `finished` sets progress 100 and status `completed`; any other event changes nothing; the error field is never touched |
| JobServer.HooksSetStatus | server/app.py:77-87 | After a run of hook events the status is `completed` exactly when some event was `finished`, and otherwise unchanged; the error field is unchanged |
| JobServer.JobResult | server/app.py:56-106 | A normal end leaves status `completed` and the error field as it was; an exception leaves status `error` with the exception's text recorded; either way the progress is the last value the hook events wrote |
| JobServer.StatusWhileRunning | server/app.py:58-100 | While yt-dlp runs, after any prefix of the hook events the entry reads `downloading` unless a `finished` event came first, and then `completed`; the error field is untouched |
| JobServer.Lifecycle | server/app.py:56-106 | A job that starts as `starting` ends `completed` or `error`; it has an error message exactly when it raised; progress stays 0 without events and is 100 when the last event was `finished` |
| JobServer.JobTable.constructor | server/app.py:18-20 | The table starts empty with the given downloads folder |
| JobServer.JobTable.GetProgress | server/app.py:29-32 | The lookup gives the stored entry exactly for a known id and nothing (`{}`) otherwise, reading the table only |
| JobServer.JobTable.Submit | server/app.py:35-53 | Without a URL: 400 `Missing URL`, no job, table unchanged. Otherwise the fresh id, previously absent, maps to progress 0 and status `starting`; every other entry is kept; the answer is 200 with that id; the job gets the request's folder, or the downloads folder when that is absent or empty |
| JobServer.JobTable.MarkDownloading | server/app.py:58 | The job's entry reads `downloading` before yt-dlp starts; its progress and error are kept and no other entry changes |
| JobServer.JobTable.ProgressHook | server/app.py:77-87 | One hook call replaces this job's entry by `ApplyHook` of it; no other entry changes |
| JobServer.JobTable.RunHooks | server/app.py:95-100 | Hook calls in order leave this job's entry equal to `ApplyHooks` of the events; no other entry changes |
| JobServer.JobTable.DownloadVideo | server/app.py:56-106 | The job thread leaves its own entry equal to `JobResult` of the old entry and the run; no other entry changes |
| LegacyServer.DownloadFolder | server/appbkk.py:14 | The folder is the environment value when set, `downloads` otherwise |
| LegacyServer.Download | server/appbkk.py:19-62 | yt-dlp runs exactly when the URL is present and non-empty; a missing URL answers 400 `Missing URL`; the options are the shared format and template rules in the configured folder; a normal end answers 200 success, an exception 500 with its text |
| Client.SuggestedFilename | client/src/App.jsx:76-77 | The save-as name is never empty and never holds `"`; it is `download` when the header is absent or has no `filename=`; otherwise it is the piece after the first `filename=` up to the next one (`SecondPiece`) with every `"` removed, or `download` when that leaves nothing |
| Client.QuotedFilename | client/src/App.jsx:77 | For a header `pre` + `filename=` + `v` with no other `=`, the name is `v` without its quotes, or `download` if nothing is left |
| Client.QuotedName | client/src/App.jsx:77 | A quoted name such as `attachment; filename="clip.mp4"` saves as the bare name `clip.mp4` |
| Client.SavedAs | client/src/App.jsx:61-79 | A file is saved exactly when the answer is `completed` and the file fetch succeeded, under a non-empty quote-free name |
| Client.TickStep | client/src/App.jsx:53-98 | A thrown status fetch only shows `Error tracking progress.` and keeps polling. Any other answer sets progress to the reported value. A non-terminal word shows `⏳ <word>...` and keeps polling. `completed` and `error` stop polling. `error` shows `❌ Error: <error>`. `completed` shows the file's fate: tracking error, `Error fetching file`, or `Download complete` with the reload scheduled. The job id never changes |
| Client.SubmitStep | client/src/App.jsx:104-132 | An empty URL only shows the warning. Otherwise progress restarts at 0. An accepted answer binds its id, leaves the button disabled, keeps the status `Starting download...` and keeps a reload already scheduled; a new id starts polling, the same id leaves polling as it was. A throw shows `Network error`. A rejected answer shows the error or `Unknown error` and keeps the id |
| Client.FileFetchedAtMostOnce | client/src/App.jsx:61-64 | Over any sequence of answers the file is fetched at most once, and after a fetch the interval is cleared |
| Client.PollingSurvivesNonTerminal | client/src/App.jsx:93-97 | Thrown fetches and unrecognised words never stop polling, fetch no file and keep the job id |
| Client.StaysDisabledBelowHundred | client/src/App.jsx:230 | The button stays disabled while every answer reports progress below 100 |
| Client.TransientFailureRun | client/src/App.jsx:53-98 | A run of `queued`, `downloading`, a thrown fetch, `downloading` and `completed` ends with one fetch, the completion message, progress 100 and the reload scheduled |
| Client.Session.constructor | client/src/App.jsx:42-48 | A new page has an empty status, progress 0, no job and no interval |
| Client.Session.BindJob | client/src/App.jsx:50-53 | Binding a new id makes polling live for that id with no file fetched yet; binding the same id again changes nothing |
| Client.Session.HandleDownload | client/src/App.jsx:104-132 | A request is sent exactly when the URL is non-empty; the new state is `SubmitStep` of the old one |
| Client.Session.Tick | client/src/App.jsx:53-98 | The new state is `TickStep` of the old one; the file is fetched exactly on `completed`; the saved name is `SavedAs` of the outcome |

## Left out

- JSX rendering, `CustomDropdown` and the `toFixed(1)` label (client/src/App.jsx:3-39,146-247) are markup and float formatting, not logic.
- Browser I/O is not modelled: `fetch`, `blob`, `createObjectURL`, the anchor click, `console` logging and the `alert`s of pause and resume (138-144). Each network answer is an outcome value (`SubmitResult`, `StatusFetch`, `FileFetch`).
- `window.location.reload` is not modelled. The delayed reload after a download (85) is only the flag `reloadScheduled`. The Cancel button (134-136) reloads the page and has no other effect, so it is not modelled.
- Timers and event-loop concurrency are not modelled: the 1000 ms interval, the 5000 ms timeout, and a tick firing while an earlier tick is still awaiting. Ticks are atomic and sequential.
- Client.Session.BindJob: the effect cleanup that clears the previous interval is modelled only as the single `pollingActive` flag being set for the new id, so "at most one live interval" holds by construction and is not proved about a set of interval handles.
- Client.Session.Tick requires a live interval, because a cleared interval never fires again.
- Server concurrency and randomness are not modelled: `Thread` and `uuid4` (server/app.py:47,50). The new id is a `freshId` parameter not already in the table, and a job's run is a sequence of hook events followed by an outcome.
- yt-dlp, Flask routing and JSON, CORS, dotenv, `os.makedirs` and `os.path.expanduser` are foreign code. The downloads folder is a constructor parameter, and an exception from `makedirs` is one more `Raised` outcome.
- `secure_filename` and Python's `float` are function parameters (`secure`, `parseFloat`). Their own behaviour is not part of this model.
- ANSI colour codes that yt-dlp may put in `_percent_str` are not interpreted; whatever `float` makes of the stripped text is what `parseFloat` returns.
- A progress reply of `{}` for an unknown id, and JSON fields of a non-string type, are not modelled on the client. Their `undefined` status and progress would make JavaScript comparisons that this model does not reproduce.
- JobServer.JobTable.DownloadVideo does not return the options it hands to yt-dlp. They are `YtDlp.OptionsFor` of the job's folder, type, resolution and file name.
- `progress` is a `real` throughout, although the Python source also stores the integers 0 and 100 there; the difference between integer and float JSON numbers is not modelled.

Where the behaviour of the code differs from a natural reading of the design, the model follows the code:

- A `completed` tick does not force progress to 100. Progress is whatever the server reported.
- A status word other than `completed` or `error` is not a protocol error. It is shown as `⏳ <word>...` and polling goes on.
- No separate "completion handled" flag exists. In this model, where ticks are atomic, clearing the interval before the file fetch is what prevents a second fetch. In the code, `setInterval` does not wait for the asynchronous callback: a tick still awaiting its status answer when another tick clears the interval can also see `completed` and fetch the file a second time. `Client.FileFetchedAtMostOnce` holds only for non-overlapping ticks.
- A throw while fetching the file is caught by the same handler as a failed status fetch. The status line becomes `Error tracking progress.` and polling stays stopped.
- The output template tests the secured file name, not the requested one. A name that `secure_filename` reduces to nothing falls back to `%(title)s`.
