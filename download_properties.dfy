/**
 * Properties of `download`: which requests are rejected, what the direct and live
 * branches return, which external actions the finite-media path runs and in what
 * order, and how playlists are expanded.
 */
module DownloadProperties {
  import opened Wrappers
  import opened StreamUrl
  import opened MediaInfo
  import opened Identity
  import opened Orchestrator

  /** The external actions of a trace, in order, without the messages. */
  function Actions(t: seq<Effect>): (r: seq<Effect>)
    ensures |r| <= |t|
    ensures forall e :: e in r ==> e in t && !e.Send?
    decreases |t|
  {
    if |t| == 0 then [] else (if t[0].Send? then [] else [t[0]]) + Actions(t[1..])
  }

  lemma {:induction false} ActionsAppend(a: seq<Effect>, b: seq<Effect>)
    ensures Actions(a + b) == Actions(a) + Actions(b)
    decreases |a|
  {
    if |a| == 0 {
      assert a + b == b;
    } else {
      assert (a + b)[1..] == a[1..] + b;
      ActionsAppend(a[1..], b);
    }
  }

  lemma {:induction false} StatusSendsHaveNoActions(lines: seq<string>)
    ensures Actions(StatusSends(lines)) == []
    decreases |lines|
  {
    if |lines| > 0 {
      assert StatusSends(lines)[1..] == StatusSends(lines[1..]);
      StatusSendsHaveNoActions(lines[1..]);
    }
  }

  lemma DownloadStepsActions(mediaId: string, m: Materialized, env: Env)
    ensures Actions(DownloadSteps(mediaId, m, env)) == [Materialize(mediaId)]
  {
    var sends := StatusSends(Progress.HookMessages(m.hooks, env.removeWhitespace, env.removeAnsi));
    ActionsAppend([Send(Status(DownloadingResource)), Materialize(mediaId)], sends);
    StatusSendsHaveNoActions(Progress.HookMessages(m.hooks, env.removeWhitespace, env.removeAnsi));
    assert [Send(Status(DownloadingResource)), Materialize(mediaId)][1..] == [Materialize(mediaId)];
  }

  lemma AudioStepsActions(mediaId: string, env: Env)
    ensures Actions(AudioSteps(mediaId, env)) == [TranscodeAudio(mediaId)]
  {
    var failed := if env.runFfmpeg(mediaId).exitCode != 0 then [Send(ErrorMessage(AudioConversionFailed))] else [];
    ActionsAppend([Send(Status(ConvertingAudio)), TranscodeAudio(mediaId)], failed);
    assert [Send(Status(ConvertingAudio)), TranscodeAudio(mediaId)][1..] == [TranscodeAudio(mediaId)];
  }

  lemma VideoStepsActions(mediaId: string, width: int, height: int, env: Env)
    ensures Actions(VideoSteps(mediaId, width, height, env)) == [TranscodeVideo(mediaId, width, height)]
  {
    var run := env.runSanjuuni(mediaId, width, height);
    var head := [Send(Status(ConvertingVideo)), TranscodeVideo(mediaId, width, height)];
    var failed := if run.exitCode != 0 then [Send(ErrorMessage(VideoConversionFailed))] else [];
    ActionsAppend(head + StatusSends(run.lines), failed);
    ActionsAppend(head, StatusSends(run.lines));
    StatusSendsHaveNoActions(run.lines);
    assert head[1..] == [TranscodeVideo(mediaId, width, height)];
  }

  /** The specified plan of the finite-media path: fetch once if anything is missing, then audio, then video. */
  function FinitePlan(mediaId: string, audioDone: bool, videoDone: bool, isVideo: bool, width: Option<int>, height: Option<int>): seq<Effect>
    requires isVideo ==> width.Some? && height.Some?
  {
    (if !audioDone || (isVideo && !videoDone) then [Materialize(mediaId)] else []) +
    (if !audioDone then [TranscodeAudio(mediaId)] else []) +
    (if isVideo && !videoDone then [TranscodeVideo(mediaId, width.value, height.value)] else [])
  }

  /** The request gets past both stream branches and reaches the cache checks with `p`. */
  ghost predicate ReachesFiniteMedia(req: Request, env: Env, p: Prepared) {
    && !IsDirectAudioStreamUrl(env.parse(req.url))
    && Prepare(SourceUrl(req), InitialQueue(req), env.extract) == Success(p)
    && !(!IsVideo(req.width, req.height) && IsDirectAudioStreamInfo(p.data, env.parse))
    && !IsLiveRecord(p.data)
  }

  /** The audio artifact of `p`'s item is cached. */
  predicate AudioDone(p: Prepared, env: Env) {
    env.audioCached(p.data.id)
  }

  /** The video artifact of `p`'s item at the capped dimensions is cached. */
  predicate VideoDone(req: Request, p: Prepared, env: Env) {
    var dims := CapDims(req.width, req.height, env.capWidthAndHeight);
    env.videoCached(p.data.id, dims.0, dims.1)
  }

  /** Fetching raw media, when it is needed, returns normally. */
  predicate FetchCompletes(req: Request, p: Prepared, env: Env) {
    NeedsFetch(AudioDone(p, env), VideoDone(req, p, env), IsVideo(req.width, req.height)) ==>
      env.materialize(p.data).completed
  }

  lemma FiniteMediaRun(req: Request, env: Env, p: Prepared)
    requires ReachesFiniteMedia(req, env, p)
    ensures
      var dims := CapDims(req.width, req.height, env.capWidthAndHeight);
      var rest := FiniteRun(p, IsVideo(req.width, req.height), dims.0, dims.1, env);
      Resolve(req, env) == Run(rest.outcome, [Send(Status(GettingInformation))] + rest.trace)
  {
  }

  /**
   * On the finite-media path the external actions are exactly the fetch (when audio is
   * missing, or video mode and video is missing), the audio transcode (when audio is
   * missing) and the video transcode (video mode and video missing), in that order. The
   * result lists the audio file, and the video file in video mode, with no continuation,
   * whatever the transcoders' exit statuses.
   */
  lemma FiniteMediaActionsAndFiles(req: Request, env: Env, p: Prepared)
    requires ReachesFiniteMedia(req, env, p)
    requires FetchCompletes(req, p, env)
    ensures
      var isVideo := IsVideo(req.width, req.height);
      var dims := CapDims(req.width, req.height, env.capWidthAndHeight);
      var run := Resolve(req, env);
      && Actions(run.trace) ==
           FinitePlan(p.data.id, AudioDone(p, env), VideoDone(req, p, env), isVideo, dims.0, dims.1)
      && run.outcome == Returned(FinalDescriptor(p.data, p.playlistVideos),
                                 ExpectedFiles(p.data.id, isVideo, dims.0, dims.1, env), None)
  {
    FiniteMediaRun(req, env, p);
    var isVideo := IsVideo(req.width, req.height);
    var dims := CapDims(req.width, req.height, env.capWidthAndHeight);
    var mediaId := p.data.id;
    var audioDone, videoDone := AudioDone(p, env), VideoDone(req, p, env);
    var m := env.materialize(p.data);
    var fetched := if NeedsFetch(audioDone, videoDone, isVideo) then DownloadSteps(mediaId, m, env) else [];
    var audio := if !audioDone then AudioSteps(mediaId, env) else [];
    var video := if !videoDone && isVideo then VideoSteps(mediaId, dims.0.value, dims.1.value, env) else [];
    DownloadStepsActions(mediaId, m, env);
    AudioStepsActions(mediaId, env);
    if isVideo {
      VideoStepsActions(mediaId, dims.0.value, dims.1.value, env);
    }
    ActionsAppend([Send(Status(GettingInformation))], fetched + audio + video);
    ActionsAppend(fetched + audio, video);
    ActionsAppend(fetched, audio);
  }

  /** The fetch runs exactly when audio is missing, or video mode is on and video is missing. */
  lemma FetchRunsIffSomethingMissing(req: Request, env: Env, p: Prepared)
    requires ReachesFiniteMedia(req, env, p)
    ensures Materialize(p.data.id) in Actions(Resolve(req, env).trace) <==>
      !AudioDone(p, env) || (IsVideo(req.width, req.height) && !VideoDone(req, p, env))
  {
    if FetchCompletes(req, p, env) {
      FiniteMediaActionsAndFiles(req, env, p);
    } else {
      FetchFailureRaises(req, env, p);
    }
  }

  /**
   * The audio transcode runs exactly when audio is missing, the video transcode exactly
   * in video mode with video missing, and when both run the audio one comes first.
   */
  lemma TranscodesRunIffMissing(req: Request, env: Env, p: Prepared)
    requires ReachesFiniteMedia(req, env, p)
    requires FetchCompletes(req, p, env)
    ensures
      var acts := Actions(Resolve(req, env).trace);
      var isVideo := IsVideo(req.width, req.height);
      && (TranscodeAudio(p.data.id) in acts <==> !AudioDone(p, env))
      && ((exists k :: 0 <= k < |acts| && acts[k].TranscodeVideo?) <==> isVideo && !VideoDone(req, p, env))
      && (!AudioDone(p, env) && isVideo && !VideoDone(req, p, env) ==>
            exists k :: 0 <= k && k + 1 < |acts| && acts[k] == TranscodeAudio(p.data.id) && acts[k + 1].TranscodeVideo?)
  {
    FiniteMediaActionsAndFiles(req, env, p);
    var dims := CapDims(req.width, req.height, env.capWidthAndHeight);
    FinitePlanTranscodes(p.data.id, AudioDone(p, env), VideoDone(req, p, env), IsVideo(req.width, req.height), dims.0, dims.1);
  }

  /** The transcode facts of `FinitePlan` itself. */
  lemma FinitePlanTranscodes(mediaId: string, audioDone: bool, videoDone: bool, isVideo: bool,
                             width: Option<int>, height: Option<int>)
    requires isVideo ==> width.Some? && height.Some?
    ensures
      var acts := FinitePlan(mediaId, audioDone, videoDone, isVideo, width, height);
      && (TranscodeAudio(mediaId) in acts <==> !audioDone)
      && ((exists k :: 0 <= k < |acts| && acts[k].TranscodeVideo?) <==> isVideo && !videoDone)
      && (!audioDone && isVideo && !videoDone ==>
            exists k :: 0 <= k && k + 1 < |acts| && acts[k] == TranscodeAudio(mediaId) && acts[k + 1].TranscodeVideo?)
  {
    var acts := FinitePlan(mediaId, audioDone, videoDone, isVideo, width, height);
    if isVideo && !videoDone {
      assert acts[|acts| - 1].TranscodeVideo?;
      if !audioDone {
        assert acts[|acts| - 2] == TranscodeAudio(mediaId);
      }
    }
  }

  /** With every needed artifact cached, nothing is fetched or transcoded and the files are still listed. */
  lemma AllCachedDoesNoWork(req: Request, env: Env, p: Prepared)
    requires ReachesFiniteMedia(req, env, p)
    requires AudioDone(p, env) && (IsVideo(req.width, req.height) ==> VideoDone(req, p, env))
    ensures
      var dims := CapDims(req.width, req.height, env.capWidthAndHeight);
      && Actions(Resolve(req, env).trace) == []
      && Resolve(req, env).outcome ==
           Returned(FinalDescriptor(p.data, p.playlistVideos),
                    ExpectedFiles(p.data.id, IsVideo(req.width, req.height), dims.0, dims.1, env), None)
  {
    FiniteMediaActionsAndFiles(req, env, p);
  }

  /** A fetch that raises ends the request with that exception after the fetch action alone. */
  lemma FetchFailureRaises(req: Request, env: Env, p: Prepared)
    requires ReachesFiniteMedia(req, env, p)
    requires NeedsFetch(AudioDone(p, env), VideoDone(req, p, env), IsVideo(req.width, req.height))
    requires !env.materialize(p.data).completed
    ensures Resolve(req, env).outcome == Raised(DownloadFailed)
    ensures Actions(Resolve(req, env).trace) == [Materialize(p.data.id)]
  {
    FiniteMediaRun(req, env, p);
    var m := env.materialize(p.data);
    DownloadStepsActions(p.data.id, m, env);
    ActionsAppend([Send(Status(GettingInformation))], DownloadSteps(p.data.id, m, env));
  }

  /** A failed audio transcode sends an error message, and the request still returns its files. */
  lemma AudioFailureIsReportedNotFatal(req: Request, env: Env, p: Prepared)
    requires ReachesFiniteMedia(req, env, p)
    requires FetchCompletes(req, p, env)
    requires !AudioDone(p, env) && env.runFfmpeg(p.data.id).exitCode != 0
    ensures Send(ErrorMessage(AudioConversionFailed)) in Resolve(req, env).trace
    ensures Resolve(req, env).outcome.Returned? && Resolve(req, env).outcome.descriptor.Media?
  {
    FiniteMediaRun(req, env, p);
    var steps := AudioSteps(p.data.id, env);
    assert steps[2] == Send(ErrorMessage(AudioConversionFailed));
  }

  /** A failed video transcode sends an error message, and the request still returns its files. */
  lemma VideoFailureIsReportedNotFatal(req: Request, env: Env, p: Prepared)
    requires ReachesFiniteMedia(req, env, p)
    requires FetchCompletes(req, p, env)
    requires IsVideo(req.width, req.height) && !VideoDone(req, p, env)
    requires
      var dims := CapDims(req.width, req.height, env.capWidthAndHeight);
      env.runSanjuuni(p.data.id, dims.0.value, dims.1.value).exitCode != 0
    ensures Send(ErrorMessage(VideoConversionFailed)) in Resolve(req, env).trace
    ensures Resolve(req, env).outcome.Returned? && Resolve(req, env).outcome.descriptor.Media?
  {
    FiniteMediaRun(req, env, p);
    var dims := CapDims(req.width, req.height, env.capWidthAndHeight);
    var steps := VideoSteps(p.data.id, dims.0.value, dims.1.value, env);
    assert steps[|steps| - 1] == Send(ErrorMessage(VideoConversionFailed));
  }

  /** The transcoders' output and exit statuses never change the returned triple. */
  lemma OutcomeIgnoresTranscoders(req: Request, env: Env,
                                  ffmpeg: string -> ProcessRun, sanjuuni: (string, int, int) -> ProcessRun)
    ensures Resolve(req, env).outcome == Resolve(req, env.(runFfmpeg := ffmpeg, runSanjuuni := sanjuuni)).outcome
  {
    var env' := env.(runFfmpeg := ffmpeg, runSanjuuni := sanjuuni);
    assert Prepare(SourceUrl(req), InitialQueue(req), env.extract) ==
           Prepare(SourceUrl(req), InitialQueue(req), env'.extract);
  }

  /** Video requests against a direct-stream URL are rejected before anything else happens. */
  lemma VideoOfDirectUrlIsRejected(req: Request, env: Env)
    requires IsVideo(req.width, req.height) && IsDirectAudioStreamUrl(env.parse(req.url))
    ensures Resolve(req, env) == Run(LivestreamVideoRejected, [])
  {
  }

  /** Video requests against a record that declares a livestream are rejected without any action. */
  lemma VideoOfLivestreamIsRejected(req: Request, env: Env, p: Prepared)
    requires IsVideo(req.width, req.height)
    requires !IsDirectAudioStreamUrl(env.parse(req.url))
    requires Prepare(SourceUrl(req), InitialQueue(req), env.extract) == Success(p)
    requires IsLiveRecord(p.data)
    ensures Resolve(req, env).outcome == LivestreamVideoRejected
    ensures Actions(Resolve(req, env).trace) == []
  {
    assert Resolve(req, env).trace == [Send(Status(GettingInformation))];
  }

  /**
   * An audio request for a direct-stream URL is a pointer: the `live-` identity of the
   * URL, the URL as title, no counts, live, the audio file name, the URL and identity
   * as continuation, and nothing sent or run.
   */
  lemma DirectUrlIsAPointer(req: Request, env: Env)
    requires !IsVideo(req.width, req.height) && IsDirectAudioStreamUrl(env.parse(req.url))
    ensures
      var mediaId := LiveStreamId(req.url, env.sha1);
      && |mediaId| == 21 && mediaId[..5] == "live-"
      && Resolve(req, env) ==
           Run(Returned(Media(mediaId, Some(req.url), None, None, Some(true), None),
                        [env.audioName(mediaId)], Some(Continuation(req.url, mediaId))), [])
  {
  }

  /**
   * An audio request whose record looks like a direct stream is a pointer too: the
   * `live-` identity of the picked audio URL (or of the extracted URL when none is
   * truthy), the record's title or else the URL, the record's counts, live, and
   * nothing fetched or transcoded.
   */
  lemma DirectRecordIsAPointer(req: Request, env: Env, p: Prepared)
    requires !IsVideo(req.width, req.height)
    requires !IsDirectAudioStreamUrl(env.parse(req.url))
    requires Prepare(SourceUrl(req), InitialQueue(req), env.extract) == Success(p)
    requires IsDirectAudioStreamInfo(p.data, env.parse)
    ensures
      var picked := PickAudioUrl(p.data);
      var source := if Truthy(picked) then picked.value else SourceUrl(req);
      var mediaId := LiveStreamId(source, env.sha1);
      var title := if Truthy(p.data.title) then p.data.title.value else SourceUrl(req);
      && mediaId[..5] == "live-" && mediaId[5..] == env.sha1(source)[..16]
      && Resolve(req, env).outcome ==
           Returned(Media(mediaId, Some(title), p.data.likeCount, p.data.viewCount, Some(true), None),
                    [env.audioName(mediaId)], Some(Continuation(source, mediaId)))
      && Actions(Resolve(req, env).trace) == []
  {
    assert Resolve(req, env).trace == [Send(Status(GettingInformation))];
  }

  /**
   * An audio request for a live record returns the record's id with the picked audio URL
   * as continuation, or the error reply when no truthy audio URL can be picked.
   */
  lemma LiveAudioRequest(req: Request, env: Env, p: Prepared)
    requires !IsVideo(req.width, req.height)
    requires !IsDirectAudioStreamUrl(env.parse(req.url))
    requires Prepare(SourceUrl(req), InitialQueue(req), env.extract) == Success(p)
    requires !IsDirectAudioStreamInfo(p.data, env.parse) && IsLiveRecord(p.data)
    ensures
      var picked := PickAudioUrl(p.data);
      Resolve(req, env).outcome ==
        if !Truthy(picked) then Returned(ErrorReply(LivestreamAudioUnresolved), [], None)
        else Returned(Media(p.data.id, p.data.title, p.data.likeCount, p.data.viewCount, Some(true), None),
                      [env.audioName(p.data.id)], Some(Continuation(picked.value, p.data.id)))
    ensures Actions(Resolve(req, env).trace) == []
  {
    assert Resolve(req, env).trace == [Send(Status(GettingInformation))];
  }

  /** Every request that is not a direct-stream URL first announces the extraction. */
  lemma ExtractionIsAnnounced(req: Request, env: Env)
    requires !IsDirectAudioStreamUrl(env.parse(req.url))
    ensures |Resolve(req, env).trace| > 0 && Resolve(req, env).trace[0] == Send(Status(GettingInformation))
  {
  }

  /** An error reply lists no files, has no continuation, and comes with no external action. */
  lemma ErrorRepliesCarryNothing(req: Request, env: Env)
    ensures
      var run := Resolve(req, env);
      run.outcome.Returned? && run.outcome.descriptor.ErrorReply? ==>
        run.outcome.files == [] && run.outcome.continuation == None && Actions(run.trace) == []
  {
    var run := Resolve(req, env);
    if !IsDirectAudioStreamUrl(env.parse(req.url)) {
      var prepared := Prepare(SourceUrl(req), InitialQueue(req), env.extract);
      if prepared.Success? && !ReachesFiniteMedia(req, env, prepared.value) {
        assert run.trace == [Send(Status(GettingInformation))];
      }
    }
  }

  /**
   * A returned triple carries a continuation exactly when its descriptor is a live one;
   * the continuation then names the descriptor's identity, the only file is its audio
   * file, the playlist queue is dropped, and no external action ran.
   */
  lemma ContinuationIffLive(req: Request, env: Env)
    ensures
      var run := Resolve(req, env);
      var o := run.outcome;
      o.Returned? ==>
        && (o.continuation.Some? <==> o.descriptor.Media? && o.descriptor.isLive == Some(true))
        && (o.continuation.Some? ==>
              && o.continuation.value.mediaId == o.descriptor.id
              && o.files == [env.audioName(o.descriptor.id)]
              && o.descriptor.playlistVideos == None
              && Actions(run.trace) == [])
  {
    var run := Resolve(req, env);
    if run.outcome.Returned? && !IsDirectAudioStreamUrl(env.parse(req.url)) {
      var p := Prepare(SourceUrl(req), InitialQueue(req), env.extract).value;
      if !ReachesFiniteMedia(req, env, p) {
        assert run.trace == [Send(Status(GettingInformation))];
      }
    }
  }

  /**
   * Without a queue from the music-service resolver, a playlist of N entries yields its
   * first entry as the current record and the ids of the other N - 1, in order, as queue.
   */
  lemma PlaylistExpansion(data: Info)
    requires data.kind == Some("playlist") && |data.entries| > 0
    ensures ExpandPlaylist(data, []) == Some(Prepared(data.entries[0], EntryIds(data.entries[1..])))
    ensures |EntryIds(data.entries[1..])| == |data.entries| - 1
  {
    assert ([] + EntryIds(data.entries))[1..] == EntryIds(data.entries[1..]);
  }

  /** A playlist without entries raises, whatever was queued. */
  lemma EmptyPlaylistRaises(data: Info, queue: seq<string>)
    requires data.kind == Some("playlist") && data.entries == []
    ensures ExpandPlaylist(data, queue) == None
  {
  }

  /**
   * With a queue from the music-service resolver, expansion pops the queue's head rather
   * than the first entry: the first entry is both the current record and queued last-but-N.
   */
  lemma ResolverQueueMeetsPlaylist(data: Info, queue: seq<string>)
    requires data.kind == Some("playlist") && |data.entries| > 0 && |queue| > 0
    ensures ExpandPlaylist(data, queue) == Some(Prepared(data.entries[0], queue[1..] + EntryIds(data.entries)))
  {
    assert (queue + EntryIds(data.entries))[1..] == queue[1..] + EntryIds(data.entries);
  }

  /** A record that is not a playlist keeps the resolver's queue as it is. */
  lemma NonPlaylistKeepsQueue(data: Info, queue: seq<string>)
    requires data.kind != Some("playlist")
    ensures ExpandPlaylist(data, queue) == Some(Prepared(data, queue))
  {
  }

  /**
   * A fresh playlist extraction (from any extractor; a generic one with a domain) makes
   * the first entry current with the other entries' ids queued. A flat first entry is
   * extracted again by its id: the full record replaces it, the queue is kept, and a
   * failed re-extraction raises.
   */
  lemma PreparePlaylist(url: string, extract: string -> Option<Info>, data: Info)
    requires extract(url) == Some(data)
    requires data.kind == Some("playlist") && |data.entries| > 0
    requires data.extractor == Some("generic") ==> data.webpageUrlDomain.Some?
    ensures
      var first := data.entries[0];
      var queued := EntryIds(data.entries[1..]);
      Prepare(url, [], extract) ==
        if !NeedsBackfill(first) then Success(Prepared(first, queued))
        else match extract(first.id)
             case None => Failure(ExtractionFailed)
             case Some(full) => Success(Prepared(full, queued))
  {
    var rewritten := RewriteGenericId(data).value;
    assert rewritten.kind == data.kind && rewritten.entries == data.entries;
    PlaylistExpansion(rewritten);
  }

  /** A generic-extractor record without a domain raises before any playlist handling. */
  lemma GenericWithoutDomainRaises(url: string, queue: seq<string>, extract: string -> Option<Info>, data: Info)
    requires extract(url) == Some(data)
    requires data.extractor == Some("generic") && data.webpageUrlDomain.None?
    ensures Prepare(url, queue, extract) == Failure(MissingDomain)
  {
  }

  /** A generic-extractor record with a domain is identified as `g<domain><id>`, never as a live id. */
  lemma GenericRecordIdentity(data: Info, sha1: string -> HexDigest, url: string)
    requires data.extractor == Some("generic") && data.webpageUrlDomain.Some?
    ensures RewriteGenericId(data).Some?
    ensures RewriteGenericId(data).value.id == "g" + data.webpageUrlDomain.value + data.id
    ensures RewriteGenericId(data).value.id != LiveStreamId(url, sha1)
  {
    LiveAndGenericIdsDiffer(url, sha1, data.webpageUrlDomain.value, data.id);
  }
}
