/**
 * The decision logic of `download`: how one request becomes an error reply, a
 * live/direct pointer, or a finite media item with its cached or transcoded files,
 * and which external steps run on the way, in what order.
 *
 * Everything `download` calls outside this file is a field of `Env`: URL parsing,
 * the SHA-1 digest, the `yc_utils` helpers (dimension capping, file names, cache
 * checks, text clean-up), the extraction service (`extract_info`,
 * `process_ie_result`) and the two transcoder processes.
 */
module Orchestrator {
  import opened Wrappers
  import opened StreamUrl
  import opened MediaInfo
  import opened Identity
  import opened Progress

  /** What the music-service resolver made of the URL: nothing, or a new URL and queued entries. */
  datatype SpotifyAnswer = NotResolved | Resolved(url: string, queue: seq<string>)

  /** One call of `download`; `width` and `height` are None when the client sent none. */
  datatype Request = Request(url: string, width: Option<int>, height: Option<int>, spotify: SpotifyAnswer)

  /** What a transcoder process wrote, line by line, and its exit status. */
  datatype ProcessRun = ProcessRun(lines: seq<string>, exitCode: int)

  /** The progress-hook calls made while raw media was fetched, and whether the fetch returned. */
  datatype Materialized = Materialized(hooks: seq<HookInfo>, completed: bool)

  /** The collaborators of `download`, as total functions of the values they are given. */
  datatype Env = Env(
    parse: string -> ParsedUrl,
    sha1: string -> HexDigest,
    capWidthAndHeight: (int, int) -> (int, int),
    audioName: string -> string,
    videoName: (string, int, int) -> string,
    audioCached: string -> bool,
    videoCached: (string, Option<int>, Option<int>) -> bool,
    extract: string -> Option<Info>,
    materialize: Info -> Materialized,
    runFfmpeg: string -> ProcessRun,
    runSanjuuni: (string, int, int) -> ProcessRun,
    removeWhitespace: string -> string,
    removeAnsi: string -> string)

  /** A websocket message: `{"action": "status"}` or `{"action": "error"}`. */
  datatype Message = Status(text: string) | ErrorMessage(text: string)

  /** One observable step: a message sent, or an external action started. */
  datatype Effect =
    | Send(message: Message)
    | Materialize(mediaId: string)
    | TranscodeAudio(mediaId: string)
    | TranscodeVideo(mediaId: string, width: int, height: int)

  /** The first element of the returned triple: a media descriptor or an error reply. */
  datatype Descriptor =
    | Media(id: string, title: Option<string>, likeCount: Option<int>, viewCount: Option<int>,
            isLive: Option<bool>, playlistVideos: Option<seq<string>>)
    | ErrorReply(message: string)

  /** The third element of the returned triple, for direct and live streams. */
  datatype Continuation = Continuation(sourceUrl: string, mediaId: string)

  /** Exceptions that escape `download`. */
  datatype Raise = ExtractionFailed | MissingDomain | EmptyPlaylist | DownloadFailed

  datatype Outcome =
    | Returned(descriptor: Descriptor, files: seq<string>, continuation: Option<Continuation>)
    | Raised(error: Raise)

  /** The outcome of one request and everything it did, in order. */
  datatype Run = Run(outcome: Outcome, trace: seq<Effect>)

  /** A prepared record: the current item and the playlist entries still queued. */
  datatype Prepared = Prepared(data: Info, playlistVideos: seq<string>)

  const GettingInformation: string := "Getting resource information ..."
  const DownloadingResource: string := "Downloading resource ..."
  const ConvertingAudio: string := "Converting audio to dfpwm ..."
  const ConvertingVideo: string := "Converting video to 32vid ..."
  const AudioConversionFailed: string := "Faild to convert audio!"
  const VideoConversionFailed: string := "Faild to convert video!"
  const LivestreamVideoUnsupported: string := "Livestream video is not supported"
  const LivestreamAudioUnresolved: string := "Could not resolve livestream audio URL"

  /** Video mode: both dimensions were given (zero counts as given). */
  predicate IsVideo(width: Option<int>, height: Option<int>) {
    width.Some? && height.Some?
  }

  /** Dimensions after capping, which happens only when both are given and nonzero. */
  function CapDims(width: Option<int>, height: Option<int>, cap: (int, int) -> (int, int)): (r: (Option<int>, Option<int>))
    ensures r.0.Some? == width.Some? && r.1.Some? == height.Some?
    ensures !(width.Some? && height.Some? && width.value != 0 && height.value != 0) ==> r == (width, height)
    ensures width.Some? && height.Some? && width.value != 0 && height.value != 0 ==>
      r == (Some(cap(width.value, height.value).0), Some(cap(width.value, height.value).1))
  {
    if width.Some? && height.Some? && width.value != 0 && height.value != 0 then
      var capped := cap(width.value, height.value);
      (Some(capped.0), Some(capped.1))
    else (width, height)
  }

  /** The URL handed to the extraction service, after the music-service resolver. */
  function SourceUrl(req: Request): string {
    if req.spotify.Resolved? then req.spotify.url else req.url
  }

  /** The playlist entries the music-service resolver queued before extraction. */
  function InitialQueue(req: Request): seq<string> {
    if req.spotify.Resolved? then req.spotify.queue else []
  }

  /**
   * The generic-extractor identity rewrite: a record from the generic extractor takes
   * the id `g<domain><id>`; one without a domain makes the concatenation raise.
   */
  function RewriteGenericId(data: Info): (r: Option<Info>)
    ensures data.extractor != Some("generic") ==> r == Some(data)
    ensures data.extractor == Some("generic") ==> (r.Some? <==> data.webpageUrlDomain.Some?)
    ensures data.extractor == Some("generic") && r.Some? ==>
      r.value == data.(id := GenericId(data.webpageUrlDomain.value, data.id))
  {
    if data.extractor != Some("generic") then Some(data)
    else if data.webpageUrlDomain.None? then None
    else Some(data.(id := GenericId(data.webpageUrlDomain.value, data.id)))
  }

  /** The ids of playlist entries, in entry order. */
  function EntryIds(entries: seq<Info>): (r: seq<string>)
    ensures |r| == |entries|
    ensures forall i :: 0 <= i < |entries| ==> r[i] == entries[i].id
  {
    seq(|entries|, i requires 0 <= i < |entries| => entries[i].id)
  }

  /**
   * Playlist expansion: the ids of all entries are appended to the queue, the head of
   * the queue is dropped, and the first entry becomes the current record. Popping from
   * an empty queue, or taking the first of no entries, raises (None).
   */
  function ExpandPlaylist(data: Info, queue: seq<string>): (r: Option<Prepared>)
  {
    if data.kind != Some("playlist") then Some(Prepared(data, queue))
    else
      var all := queue + EntryIds(data.entries);
      if |all| == 0 || |data.entries| == 0 then None
      else Some(Prepared(data.entries[0], all[1..]))
  }

  /** A YouTube record extracted flat lacks engagement counts and is extracted again. */
  predicate NeedsBackfill(data: Info) {
    data.extractor == Some("youtube") && (data.viewCount.None? || data.likeCount.None?)
  }

  /** Extraction, identity rewrite, playlist expansion and backfill, in that order. */
  function Prepare(url: string, queue: seq<string>, extract: string -> Option<Info>): Result<Prepared, Raise> {
    match extract(url)
    case None => Failure(ExtractionFailed)
    case Some(first) =>
      match RewriteGenericId(first)
      case None => Failure(MissingDomain)
      case Some(rewritten) =>
        match ExpandPlaylist(rewritten, queue)
        case None => Failure(EmptyPlaylist)
        case Some(p) =>
          if !NeedsBackfill(p.data) then Success(p)
          else
            match extract(p.data.id)
            case None => Failure(ExtractionFailed)
            case Some(full) => Success(Prepared(full, p.playlistVideos))
  }

  /** The record declares a livestream. */
  predicate IsLiveRecord(data: Info) {
    data.isLive == Some(true) || data.liveStatus == Some("is_live")
  }

  /** The error reply for a video request against a direct stream or livestream. */
  const LivestreamVideoRejected: Outcome := Returned(ErrorReply(LivestreamVideoUnsupported), [], None)

  /** A status message for every line, in order. */
  function StatusSends(lines: seq<string>): (r: seq<Effect>)
    ensures |r| == |lines|
    ensures forall i :: 0 <= i < |lines| ==> r[i] == Send(Status(lines[i]))
  {
    seq(|lines|, i requires 0 <= i < |lines| => Send(Status(lines[i])))
  }

  /** The fetch of raw media: its announcement, the action, and the hook's messages. */
  function DownloadSteps(mediaId: string, m: Materialized, env: Env): seq<Effect> {
    [Send(Status(DownloadingResource)), Materialize(mediaId)] +
    StatusSends(HookMessages(m.hooks, env.removeWhitespace, env.removeAnsi))
  }

  /** `download_audio`: announce, run FFmpeg (its lines are not relayed), report failure. */
  function AudioSteps(mediaId: string, env: Env): seq<Effect> {
    var run := env.runFfmpeg(mediaId);
    [Send(Status(ConvertingAudio)), TranscodeAudio(mediaId)] +
    (if run.exitCode != 0 then [Send(ErrorMessage(AudioConversionFailed))] else [])
  }

  /** `download_video`: announce, run Sanjuuni relaying each line, report failure. */
  function VideoSteps(mediaId: string, width: int, height: int, env: Env): seq<Effect> {
    var run := env.runSanjuuni(mediaId, width, height);
    [Send(Status(ConvertingVideo)), TranscodeVideo(mediaId, width, height)] +
    StatusSends(run.lines) +
    (if run.exitCode != 0 then [Send(ErrorMessage(VideoConversionFailed))] else [])
  }

  /** The file names a finite item returns: audio, then video in video mode. */
  function ExpectedFiles(mediaId: string, isVideo: bool, width: Option<int>, height: Option<int>, env: Env): seq<string>
    requires isVideo ==> width.Some? && height.Some?
  {
    [env.audioName(mediaId)] + (if isVideo then [env.videoName(mediaId, width.value, height.value)] else [])
  }

  /** The descriptor of a finite item; the queue is included only when it is not empty. */
  function FinalDescriptor(data: Info, playlistVideos: seq<string>): Descriptor {
    Media(data.id, data.title, data.likeCount, data.viewCount, None,
          if |playlistVideos| > 0 then Some(playlistVideos) else None)
  }

  /** Whether raw media must be fetched: audio is missing, or video mode and video is missing. */
  predicate NeedsFetch(audioDone: bool, videoDone: bool, isVideo: bool) {
    !audioDone || (!videoDone && isVideo)
  }

  /** The finite-media path: cache checks, fetch, transcodes, and the result. */
  function FiniteRun(p: Prepared, isVideo: bool, width: Option<int>, height: Option<int>, env: Env): Run
    requires isVideo ==> width.Some? && height.Some?
  {
    var mediaId := p.data.id;
    var audioDone := env.audioCached(mediaId);
    var videoDone := env.videoCached(mediaId, width, height);
    var fetch := NeedsFetch(audioDone, videoDone, isVideo);
    var m := env.materialize(p.data);
    var fetched := if fetch then DownloadSteps(mediaId, m, env) else [];
    if fetch && !m.completed then Run(Raised(DownloadFailed), fetched)
    else
      var audio := if !audioDone then AudioSteps(mediaId, env) else [];
      var video := if !videoDone && isVideo then VideoSteps(mediaId, width.value, height.value, env) else [];
      Run(Returned(FinalDescriptor(p.data, p.playlistVideos), ExpectedFiles(mediaId, isVideo, width, height, env), None),
          fetched + audio + video)
  }

  /** What `download` does with a prepared record. `url` is the URL it was extracted from. */
  function Decide(p: Prepared, url: string, isVideo: bool, width: Option<int>, height: Option<int>, env: Env): Run
    requires isVideo ==> width.Some? && height.Some?
  {
    var data := p.data;
    if !isVideo && IsDirectAudioStreamInfo(data, env.parse) then
      var picked := PickAudioUrl(data);
      var audioUrl := if Truthy(picked) then picked.value else url;
      var mediaId := LiveStreamId(audioUrl, env.sha1);
      var title := if Truthy(data.title) then data.title.value else url;
      Run(Returned(Media(mediaId, Some(title), data.likeCount, data.viewCount, Some(true), None),
                   [env.audioName(mediaId)], Some(Continuation(audioUrl, mediaId))), [])
    else if IsLiveRecord(data) then
      if isVideo then Run(LivestreamVideoRejected, [])
      else
        var picked := PickAudioUrl(data);
        if !Truthy(picked) then Run(Returned(ErrorReply(LivestreamAudioUnresolved), [], None), [])
        else
          Run(Returned(Media(data.id, data.title, data.likeCount, data.viewCount, Some(true), None),
                       [env.audioName(data.id)], Some(Continuation(picked.value, data.id))), [])
    else FiniteRun(p, isVideo, width, height, env)
  }

  /** The outcome and the trace of `download` for one request. */
  function Resolve(req: Request, env: Env): Run {
    var isVideo := IsVideo(req.width, req.height);
    var dims := CapDims(req.width, req.height, env.capWidthAndHeight);
    if IsDirectAudioStreamUrl(env.parse(req.url)) then
      if isVideo then Run(LivestreamVideoRejected, [])
      else
        var mediaId := LiveStreamId(req.url, env.sha1);
        Run(Returned(Media(mediaId, Some(req.url), None, None, Some(true), None),
                     [env.audioName(mediaId)], Some(Continuation(req.url, mediaId))), [])
    else
      var getting := [Send(Status(GettingInformation))];
      match Prepare(SourceUrl(req), InitialQueue(req), env.extract)
      case Failure(e) => Run(Raised(e), getting)
      case Success(p) =>
        var rest := Decide(p, SourceUrl(req), isVideo, dims.0, dims.1, env);
        Run(rest.outcome, getting + rest.trace)
  }

  /**
   * The extraction part of `download`: extract, rewrite a generic id in place, build the
   * playlist queue by appending every entry id and popping the head, and extract a flat
   * YouTube record again.
   */
  method PrepareRecord(url: string, queue: seq<string>, extract: string -> Option<Info>)
    returns (r: Result<Prepared, Raise>)
    ensures r == Prepare(url, queue, extract)
  {
    var playlistVideos := queue;
    var extracted := extract(url);
    if extracted.None? {
      return Failure(ExtractionFailed);
    }
    var data := extracted.value;

    if data.extractor == Some("generic") {
      if data.webpageUrlDomain.None? {
        return Failure(MissingDomain);
      }
      data := data.(id := "g" + data.webpageUrlDomain.value + data.id);
    }
    assert RewriteGenericId(extracted.value) == Some(data);

    if data.kind == Some("playlist") {
      var entries := data.entries;
      for i := 0 to |entries|
        invariant playlistVideos == queue + EntryIds(entries[..i])
      {
        assert EntryIds(entries[..i + 1]) == EntryIds(entries[..i]) + [entries[i].id];
        playlistVideos := playlistVideos + [entries[i].id];
      }
      assert entries[..|entries|] == entries;
      if |playlistVideos| == 0 {
        return Failure(EmptyPlaylist);
      }
      playlistVideos := playlistVideos[1..];
      if |entries| == 0 {
        return Failure(EmptyPlaylist);
      }
      data := entries[0];
    }
    assert ExpandPlaylist(RewriteGenericId(extracted.value).value, queue) == Some(Prepared(data, playlistVideos));

    if data.extractor == Some("youtube") && (data.viewCount.None? || data.likeCount.None?) {
      var full := extract(data.id);
      if full.None? {
        return Failure(ExtractionFailed);
      }
      data := full.value;
    }
    return Success(Prepared(data, playlistVideos));
  }

  /** The audio then the video conversion, each only when its artifact is missing. */
  method Transcode(mediaId: string, audioDone: bool, videoDone: bool, isVideo: bool,
                   width: Option<int>, height: Option<int>, env: Env)
    returns (trace: seq<Effect>)
    requires isVideo ==> width.Some? && height.Some?
    ensures trace == (if !audioDone then AudioSteps(mediaId, env) else []) +
                     (if !videoDone && isVideo then VideoSteps(mediaId, width.value, height.value, env) else [])
  {
    var audio: seq<Effect> := [];
    if !audioDone {
      audio := AudioSteps(mediaId, env);
    }
    var video: seq<Effect> := [];
    if !videoDone && isVideo {
      video := VideoSteps(mediaId, width.value, height.value, env);
    }
    trace := audio + video;
  }

  /** The media descriptor and the file list of a finite item, built by appending. */
  method Describe(p: Prepared, isVideo: bool, width: Option<int>, height: Option<int>, env: Env)
    returns (out: Descriptor, files: seq<string>)
    requires isVideo ==> width.Some? && height.Some?
    ensures out == FinalDescriptor(p.data, p.playlistVideos)
    ensures files == ExpectedFiles(p.data.id, isVideo, width, height, env)
  {
    var data := p.data;
    var mediaId := data.id;
    out := Media(mediaId, data.title, data.likeCount, data.viewCount, None, None);
    if |p.playlistVideos| > 0 {
      out := out.(playlistVideos := Some(p.playlistVideos));
    }
    files := [];
    files := files + [env.audioName(mediaId)];
    if isVideo {
      files := files + [env.videoName(mediaId, width.value, height.value)];
    }
  }

  /** The fetch of raw media, only when an artifact is missing; false when the fetch raised. */
  method Fetch(p: Prepared, audioDone: bool, videoDone: bool, isVideo: bool, env: Env)
    returns (trace: seq<Effect>, completed: bool)
    ensures trace == if NeedsFetch(audioDone, videoDone, isVideo) then DownloadSteps(p.data.id, env.materialize(p.data), env) else []
    ensures completed == (!NeedsFetch(audioDone, videoDone, isVideo) || env.materialize(p.data).completed)
  {
    trace, completed := [], true;
    if !audioDone || (!videoDone && isVideo) {
      var m := env.materialize(p.data);
      trace := DownloadSteps(p.data.id, m, env);
      completed := m.completed;
    }
  }

  /**
   * The finite-media part of `download`: check the caches, fetch once if anything is
   * missing, run the conversions, and return the descriptor and the files.
   */
  method Finish(p: Prepared, isVideo: bool, width: Option<int>, height: Option<int>, env: Env)
    returns (run: Run)
    requires isVideo ==> width.Some? && height.Some?
    ensures run == FiniteRun(p, isVideo, width, height, env)
  {
    var mediaId := p.data.id;
    var audioDownloaded := env.audioCached(mediaId);
    var videoDownloaded := env.videoCached(mediaId, width, height);
    var trace, completed := Fetch(p, audioDownloaded, videoDownloaded, isVideo, env);
    if !completed {
      return Run(Raised(DownloadFailed), trace);
    }
    var converted := Transcode(mediaId, audioDownloaded, videoDownloaded, isVideo, width, height, env);
    var out, files := Describe(p, isVideo, width, height, env);
    return Run(Returned(out, files, None), trace + converted);
  }

  /**
   * `download`, step by step: it reassigns the URL, the dimensions and the record along
   * the branches and returns from each terminal branch with the trace so far.
   */
  method Download(req: Request, env: Env) returns (run: Run)
    ensures run == Resolve(req, env)
  {
    var isVideo := req.width.Some? && req.height.Some?;
    var width, height := req.width, req.height;
    if width.Some? && height.Some? && width.value != 0 && height.value != 0 {
      var capped := env.capWidthAndHeight(width.value, height.value);
      width, height := Some(capped.0), Some(capped.1);
    }

    if IsDirectAudioStreamUrl(env.parse(req.url)) {
      if isVideo {
        return Run(Returned(ErrorReply(LivestreamVideoUnsupported), [], None), []);
      }
      var mediaId := LiveStreamId(req.url, env.sha1);
      var out := Media(mediaId, Some(req.url), None, None, Some(true), None);
      return Run(Returned(out, [env.audioName(mediaId)], Some(Continuation(req.url, mediaId))), []);
    }

    var trace: seq<Effect> := [Send(Status(GettingInformation))];
    var url := req.url;
    var queue: seq<string> := [];
    if req.spotify.Resolved? {
      url := req.spotify.url;
      queue := req.spotify.queue;
    }

    var prepared := PrepareRecord(url, queue, env.extract);
    if prepared.Failure? {
      return Run(Raised(prepared.error), trace);
    }
    var data := prepared.value.data;

    if !isVideo && IsDirectAudioStreamInfo(data, env.parse) {
      var picked := PickAudioUrl(data);
      var audioUrl := if Truthy(picked) then picked.value else url;
      var mediaId := LiveStreamId(audioUrl, env.sha1);
      var title := if Truthy(data.title) then data.title.value else url;
      var out := Media(mediaId, Some(title), data.likeCount, data.viewCount, Some(true), None);
      return Run(Returned(out, [env.audioName(mediaId)], Some(Continuation(audioUrl, mediaId))), trace);
    }

    var mediaId := data.id;

    if data.isLive == Some(true) || data.liveStatus == Some("is_live") {
      if isVideo {
        return Run(Returned(ErrorReply(LivestreamVideoUnsupported), [], None), trace);
      }
      var audioUrl := PickAudioUrl(data);
      if !Truthy(audioUrl) {
        return Run(Returned(ErrorReply(LivestreamAudioUnresolved), [], None), trace);
      }
      var out := Media(mediaId, data.title, data.likeCount, data.viewCount, Some(true), None);
      return Run(Returned(out, [env.audioName(mediaId)], Some(Continuation(audioUrl.value, mediaId))), trace);
    }

    var finished := Finish(prepared.value, isVideo, width, height, env);
    return Run(finished.outcome, trace + finished.trace);
  }
}
