/** The older synchronous endpoint: no table, one request runs one download
    and its outcome becomes the response. */
module LegacyServer {
  import opened Common
  import opened YtDlp

  /** `DOWNLOAD_FOLDER`: the environment variable of that name, `downloads` when unset. */
  function DownloadFolder(env: Option<string>): (r: string)
    ensures env.Some? ==> r == env.value
    ensures env.None? ==> r == "downloads"
  {
    env.GetOr("downloads")
  }

  /** What one request did: the response, and the options yt-dlp was started
      with (`None` when no download was attempted). */
  datatype Handled = Handled(response: Response, invoked: Option<Options>)

  /** `POST /api/download`. Without a URL: 400 `Missing URL` and no download.
      Otherwise yt-dlp runs with the shared format and template rules inside
      `folder` (the request's own `folder` field is ignored), and its outcome
      becomes `{'success': True}` or a 500 carrying the exception's text. */
  function Download(req: DownloadRequest, folder: string, secure: string -> string, outcome: RunOutcome): (r: Handled)
    ensures UrlMissing(req) <==> r.invoked.None?
    ensures UrlMissing(req) ==> r.response == MissingUrl
    ensures r.invoked.Some? ==>
              r.invoked.value == OptionsFor(folder, req.downloadType, req.resolution, req.filename, secure)
    ensures !UrlMissing(req) && outcome.Finished? ==> r.response == Response(200, Success(None))
    ensures !UrlMissing(req) && outcome.Raised? ==> r.response == Response(500, Error(outcome.message))
  {
    if UrlMissing(req) then Handled(MissingUrl, None)
    else
      var opts := OptionsFor(folder, req.downloadType, req.resolution, req.filename, secure);
      match outcome
      case Finished => Handled(Response(200, Success(None)), Some(opts))
      case Raised(message) => Handled(Response(500, Error(message)), Some(opts))
  }
}
