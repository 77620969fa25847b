/** What both Flask handlers share: the JSON request they read, the response
    they send, and the options they hand to yt-dlp. yt-dlp itself is outside the
    model; its run is described by a `RunOutcome`. */
module YtDlp {
  import opened Common

  /** The JSON body of `POST /api/download`; every field may be absent. */
  datatype DownloadRequest = DownloadRequest(
    url: Option<string>,
    downloadType: Option<string>,
    resolution: Option<string>,
    filename: Option<string>,
    folder: Option<string>)

  /** A JSON response and its HTTP status code. */
  datatype Response = Response(code: nat, body: Body)

  /** `{'success': True}` (with the job id when there is one) or `{'error': message}`. */
  datatype Body = Success(id: Option<string>) | Error(message: string)

  /** How a call into yt-dlp ended: normally, or by raising an exception with this text. */
  datatype RunOutcome = Finished | Raised(message: string)

  /** An entry of yt-dlp's `postprocessors` option. */
  datatype Postprocessor = FFmpegExtractAudio(preferredCodec: string, preferredQuality: string)

  /** The format choice: yt-dlp's `format`, `postprocessors` and `merge_output_format`. */
  datatype Selection = Selection(format: string, postprocessors: seq<Postprocessor>, mergeOutputFormat: Option<string>)

  /** The options dictionary passed to `yt_dlp.YoutubeDL` (progress hooks aside). */
  datatype Options = Options(
    format: string,
    outtmpl: string,
    mergeOutputFormat: Option<string>,
    postprocessors: seq<Postprocessor>,
    quiet: bool,
    client: string)

  const MissingUrl: Response := Response(400, Error("Missing URL"))

  /** Python's `not url`: the URL is absent or empty. */
  predicate UrlMissing(req: DownloadRequest) {
    !Truthy(req.url)
  }

  /** The format selection: audio downloads take the best audio stream and
      convert it to 192 kbit/s mp3 with no merge; anything else takes the best
      video (capped at the requested height when one is given) plus the best
      audio, merged into mp4. */
  function FormatSelection(downloadType: Option<string>, resolution: Option<string>): (r: Selection)
    ensures downloadType == Some("audio") ==>
              r == Selection("bestaudio", [FFmpegExtractAudio("mp3", "192")], None)
    ensures downloadType != Some("audio") ==> r.postprocessors == [] && r.mergeOutputFormat == Some("mp4")
    ensures downloadType != Some("audio") && Truthy(resolution) ==>
              r.format == "bestvideo[height<=" + resolution.value + "]+bestaudio/best"
    ensures downloadType != Some("audio") && !Truthy(resolution) ==> r.format == "bestvideo+bestaudio/best"
  {
    if downloadType == Some("audio") then
      Selection("bestaudio", [FFmpegExtractAudio("mp3", "192")], None)
    else
      var format := if Truthy(resolution) then "bestvideo[height<=" + resolution.value + "]+bestaudio/best"
                    else "bestvideo+bestaudio/best";
      Selection(format, [], Some("mp4"))
  }

  /** POSIX `os.path.join(a, b)`: an absolute `b` replaces `a`; otherwise `b`
      follows `a`, with one `/` between unless `a` is empty or already ends in one. */
  function PathJoin(a: string, b: string): (r: string)
    ensures |b| <= |r| && r[|r| - |b|..] == b
    ensures b != [] && b[0] == '/' ==> r == b
    ensures (b == [] || b[0] != '/') ==> |a| + |b| <= |r| && r[..|a|] == a
    ensures (b == [] || b[0] != '/') && a != [] ==> r[|r| - |b| - 1] == '/'
    ensures (b == [] || b[0] != '/') && (a == [] || a[|a| - 1] == '/') ==> |r| == |a| + |b|
    ensures (b == [] || b[0] != '/') && a != [] && a[|a| - 1] != '/' ==> |r| == |a| + |b| + 1
  {
    if b != [] && b[0] == '/' then b
    else if a == [] || a[|a| - 1] == '/' then a + b
    else a + "/" + b
  }

  /** What ends with `a + b` ends with `b`. */
  lemma EndsWithTail(r: string, a: string, b: string)
    requires |a + b| <= |r| && r[|r| - |a + b|..] == a + b
    ensures r[|r| - |b|..] == b
  {
    assert r[|r| - |b|..] == r[|r| - |a + b|..][|a|..];
  }

  const ExtSuffix := ".%(ext)s"
  const TitleStem := "%(title)s"

  /** The output template: the requested file name, sanitised by `secure`
      (werkzeug's `secure_filename`), becomes the file's stem inside `folder`;
      when no name was requested or sanitising leaves nothing, yt-dlp's
      `%(title)s` is the stem. The extension is always yt-dlp's `%(ext)s`. */
  function OutputTemplate(folder: string, filename: Option<string>, secure: string -> string): (r: string)
    ensures Truthy(filename) && secure(filename.value) != "" ==>
              r == PathJoin(folder, secure(filename.value) + ExtSuffix)
    ensures !(Truthy(filename) && secure(filename.value) != "") ==> r == PathJoin(folder, TitleStem + ExtSuffix)
    ensures |r| >= |ExtSuffix| && r[|r| - |ExtSuffix|..] == ExtSuffix
  {
    var secured := if Truthy(filename) then Some(secure(filename.value)) else None;
    var stem := if Truthy(secured) then secured.value else TitleStem;
    var r := PathJoin(folder, stem + ExtSuffix);
    EndsWithTail(r, stem, ExtSuffix);
    r
  }

  /** The full options dictionary both handlers build for one request. */
  function OptionsFor(folder: string, downloadType: Option<string>, resolution: Option<string>,
                      filename: Option<string>, secure: string -> string): (r: Options)
    ensures r.outtmpl == OutputTemplate(folder, filename, secure)
    ensures Selection(r.format, r.postprocessors, r.mergeOutputFormat) == FormatSelection(downloadType, resolution)
    ensures r.quiet && r.client == "android"
  {
    var sel := FormatSelection(downloadType, resolution);
    Options(sel.format, OutputTemplate(folder, filename, secure), sel.mergeOutputFormat, sel.postprocessors,
            true, "android")
  }
}
