# YouCube download core in Dafny

This project models the media-resolution core of the YouCube server, `src/youcube/yc_download.py`.
That code takes a URL and optional video dimensions, plus any answer from the music-service resolver.
It decides what to do with the request:

- reject it;
- answer with a stream pointer: a media identity, the audio file name, and a continuation holding the source URL and that identity. A direct-stream URL, or a record that looks like a direct stream, gets an identity of the form `live-` plus 16 hex digits. A record that declares a livestream keeps its own `id`;
- fetch and transcode a finite media item, skipping whatever is already cached, and return its descriptor and file names.

The request also sends a sequence of websocket status and error messages along the way.

Modules:

- `Wrappers`: `Option`, `Result`, and Python truthiness of optional strings.
- `StreamUrl`: `is_direct_audio_stream_url` on an already parsed URL (scheme and path).
- `MediaInfo`: the metadata record and format entries, `pick_audio_url` and `is_direct_audio_stream_info`.
  - The audio choice is specified by `IsPick`: the first candidate that a stable descending sort on `(abr or 0, tbr or 0)` puts at the front.
- `Identity`: `live_stream_id_from_url`, and the `g<domain><id>` rewrite for generic-extractor records.
- `Progress`: the message choice of the progress hook `my_hook`.
- `Orchestrator`: `download`.
  - `Resolve` is the specification function. It gives the outcome (a returned triple, or an exception that escapes) and the trace of every message and external action, in order.
  - `Download` is the step-by-step method, proved equal to `Resolve`. It relies on `PrepareRecord`, which holds the playlist append loop, and on `Finish`.
  - Every collaborator is a field of `Env`: URL parsing, SHA-1, the `yc_utils` helpers, the extraction service and the two transcoders.
- `DownloadProperties`: lemmas about `Resolve`, covering:
  - rejections and the pointer branches;
  - the exact fetch and transcode actions and their order;
  - failure reporting, and that errors carry nothing;
  - the continuation appearing exactly for live results;
  - playlist expansion, including how the resolver's queue interacts with the playlist.

## Model

| member | source | states |
|---|---|---|
| StreamUrl.Lower | src/youcube/yc_download.py:75 | the path is lower-cased character by character, keeping its length |
| StreamUrl.StripTrailingSlashes | src/youcube/yc_download.py:75 | `rstrip("/")` keeps the longest prefix; that prefix does not end in `/` and everything removed was `/` |
| StreamUrl.LastSegment | src/youcube/yc_download.py:80 | `rsplit("/", 1)[-1]` is a suffix with no `/` in it, and a `/` precedes it whenever it is shorter than the path |
| StreamUrl.EndsWithAny | src/youcube/yc_download.py:76 | true exactly when the path ends with one of the listed extensions |
| StreamUrl.IsDirectAudioStreamUrl | src/youcube/yc_download.py:70-82 | the classifier itself: not http(s) gives false; an extension suffix gives true; the empty path gives false; otherwise a bare last segment decides. Its meaning is stated by `DirectAudioStreamUrlCharacterization` and the case, slash and example lemmas |
| StreamUrl.DirectAudioNamesMatchExtensions | src/youcube/yc_download.py:81 | the bare names are exactly the eight extensions of the table with the dot removed |
| StreamUrl.NonHttpSchemeIsNeverDirect | src/youcube/yc_download.py:72-74 | a scheme other than http or https is never a direct stream, whatever the path |
| StreamUrl.DirectAudioStreamUrlCharacterization | src/youcube/yc_download.py:70-82 | an http(s) URL is direct exactly when its normalized path ends with a table extension or its last segment is one without the dot |
| StreamUrl.DirectAudioStreamUrlIgnoresCase | src/youcube/yc_download.py:75 | lower-casing the path does not change the verdict |
| StreamUrl.DirectAudioStreamUrlSameUpToCase | src/youcube/yc_download.py:75 | two paths that agree up to letter case get the same verdict |
| StreamUrl.DirectAudioStreamUrlIgnoresTrailingSlash | src/youcube/yc_download.py:75 | appending a slash to the path does not change the verdict |
| StreamUrl.DirectAudioStreamUrlIgnoresTrailingSlashes | src/youcube/yc_download.py:75 | appending any run of slashes to the path does not change the verdict |
| StreamUrl.FileUrlIsDirect | src/youcube/yc_download.py:76-77 | `https` with path `/stream.mp3` is direct |
| StreamUrl.UpperCaseTrailingSlashUrlIsDirect | src/youcube/yc_download.py:75-77 | `http` with path `/Radio/LIVE.OPUS/` is direct |
| StreamUrl.BareSegmentUrlIsDirect | src/youcube/yc_download.py:78-82 | a final segment `mp3` without a dot is direct |
| StreamUrl.RootUrlIsNotDirect | src/youcube/yc_download.py:78-79 | the root path `/` is not direct |
| MediaInfo.IsPick | src/youcube/yc_download.py:125-138 | the specification of the chosen format. It is a candidate (audio-only if any format is, else audio-bearing), no candidate has a greater key, and every earlier candidate has a smaller key. `PickIsUnique` shows it determines one index |
| MediaInfo.FirstBest | src/youcube/yc_download.py:135-138 | None exactly when no format is a candidate; otherwise a candidate that no candidate exceeds in key, strictly above every earlier candidate (stable sort) |
| MediaInfo.PickIndex | src/youcube/yc_download.py:125-138 | None exactly when no format carries audio; otherwise the index satisfying `IsPick` (audio-only formats preferred) |
| MediaInfo.PickAudioUrl | src/youcube/yc_download.py:120-138 | a truthy record `url` is returned as is; otherwise None when no format carries audio, else the `url` of the picked format |
| MediaInfo.PickIsUnique | src/youcube/yc_download.py:135-138 | at most one format satisfies `IsPick`, so the choice is determined |
| MediaInfo.PickAudioUrlNoneIff | src/youcube/yc_download.py:120-138 | when every audio format has a url, None is returned exactly when the record url is falsy and no format carries audio |
| MediaInfo.PickPrefersAudioOnly | src/youcube/yc_download.py:126-132 | if some format is audio-only, the picked format is audio-only |
| MediaInfo.IsDirectAudioStreamInfo | src/youcube/yc_download.py:85-96 | the record test itself, as the same chain of early returns. Its meaning is stated by `DirectStreamInfoByDeclaration`, `DirectShapedUrlMakesDirectInfo` and `TimedRecordIsDirectOnlyByUrl` |
| MediaInfo.DirectStreamInfoByDeclaration | src/youcube/yc_download.py:90-96 | without a direct-shaped picked URL: direct exactly when the protocol is http(s), no real video codec is declared, acodec is not "none", and duration is absent or 0 |
| MediaInfo.DirectShapedUrlMakesDirectInfo | src/youcube/yc_download.py:87-89 | a truthy direct-shaped record url makes the record direct, whatever else it declares |
| MediaInfo.TimedRecordIsDirectOnlyByUrl | src/youcube/yc_download.py:85-96 | with a nonzero duration, the record is direct exactly when its picked URL is direct-shaped |
| Identity.LiveStreamId | src/youcube/yc_download.py:115-117 | 21 characters: `live-` followed by the first 16 lower-case hex digits of the URL's SHA-1 |
| Identity.LiveStreamIdsEqualIff | src/youcube/yc_download.py:115-117 | two URLs get the same identity exactly when their digests agree on the first 16 digits |
| Identity.GenericId | src/youcube/yc_download.py:367-368 | `g`, then the domain, then the native id, each at its position |
| Identity.LiveAndGenericIdsDiffer | src/youcube/yc_download.py:367-368 | a generic-extractor identity never equals a live identity |
| Progress.HookMessage | src/youcube/yc_download.py:269-315 | silent exactly for statuses other than waiting, paused and downloading; "Waiting on YouTube ..." unless downloading with truthy percent and ETA; otherwise the cleaned `download <percent> ETA <eta>` |
| Progress.HookMessages | src/youcube/yc_download.py:269-315 | at most one message per hook call; none exactly when every call is silent |
| Progress.HookMessagesOfOneCall | src/youcube/yc_download.py:269-315 | one hook call sends exactly its message, or nothing when it is silent |
| Progress.HookMessagesAppend | src/youcube/yc_download.py:269-315 | the messages of consecutive calls are those of the first calls followed by those of the later ones, so every non-silent call's message is sent, in call order |
| Progress.HookMessagesComeFromHooks | src/youcube/yc_download.py:269-315 | every message sent is the message of one of the hook calls |
| Orchestrator.CapDims | src/youcube/yc_download.py:244-248 | when both dimensions are given and nonzero, the result is `cap(width, height)`; otherwise both are unchanged; presence of each dimension is kept |
| Orchestrator.RewriteGenericId | src/youcube/yc_download.py:367-368 | only generic-extractor records change, and only their id, to `g<domain><id>`; without a domain the step raises |
| Orchestrator.EntryIds | src/youcube/yc_download.py:374-376 | the ids of the entries, one per entry, in entry order |
| Orchestrator.ExpandPlaylist | src/youcube/yc_download.py:374-380 | playlist expansion: append every entry id to the queue, drop the queue's head, make entry 0 current; raises when either is empty. Stated by `PlaylistExpansion`, `ResolverQueueMeetsPlaylist`, `EmptyPlaylistRaises`, `NonPlaylistKeepsQueue` |
| Orchestrator.NeedsBackfill | src/youcube/yc_download.py:387-390 | a YouTube record lacking the view count or the like count is extracted again |
| Orchestrator.Prepare | src/youcube/yc_download.py:365-390 | extraction, id rewrite, expansion and backfill, with each exception as a `Failure`. Computed by `PrepareRecord`; stated by `PreparePlaylist` and `GenericWithoutDomainRaises` |
| Orchestrator.IsLiveRecord | src/youcube/yc_download.py:412 | the record declares `is_live` true, or `live_status` "is_live" |
| Orchestrator.StatusSends | src/youcube/yc_download.py:159-163 | one status message per transcoder line, in order |
| Orchestrator.DownloadSteps | src/youcube/yc_download.py:448-456 | "Downloading resource ...", the fetch, then one status per hook message in call order. Its only action is stated by `DownloadStepsActions` |
| Orchestrator.AudioSteps | src/youcube/yc_download.py:188-229 | "Converting audio to dfpwm ...", the FFmpeg run with its lines not relayed, then "Faild to convert audio!" on a nonzero status. Stated by `AudioStepsActions`, `AudioFailureIsReportedNotFatal` |
| Orchestrator.VideoSteps | src/youcube/yc_download.py:141-185 | "Converting video to 32vid ...", the Sanjuuni run with each line relayed, then "Faild to convert video!" on a nonzero status. Stated by `VideoStepsActions`, `VideoFailureIsReportedNotFatal` |
| Orchestrator.ExpectedFiles | src/youcube/yc_download.py:485-488 | the audio file name, then the video file name at the capped dimensions in video mode |
| Orchestrator.FinalDescriptor | src/youcube/yc_download.py:466-483 | id, title and counts of the record, no `is_live`, and `playlist_videos` only when the queue is non-empty |
| Orchestrator.FiniteRun | src/youcube/yc_download.py:443-490 | the finite-media path. Computed by `Finish`; stated by `FiniteMediaActionsAndFiles` and the lemmas after it |
| Orchestrator.Decide | src/youcube/yc_download.py:392-441 | the direct-record pointer in audio mode; for a live record, the video error or the live pointer or the unresolved error; otherwise the finite path. Stated by `DirectRecordIsAPointer`, `VideoOfLivestreamIsRejected`, `LiveAudioRequest` |
| Orchestrator.Resolve | src/youcube/yc_download.py:232-490 | the outcome and full trace of `download`. Computed by `Download`; stated by every lemma of `DownloadProperties` |
| Orchestrator.PrepareRecord | src/youcube/yc_download.py:352-390 | the appending loop, pop and reassignments compute `Prepare`: extraction, id rewrite, playlist expansion, backfill |
| Orchestrator.Fetch | src/youcube/yc_download.py:445-456 | the fetch steps run exactly when audio is missing, or video mode is on and video is missing; reports whether the fetch returned |
| Orchestrator.Transcode | src/youcube/yc_download.py:460-464 | the audio conversion steps when audio is missing, then the video conversion steps when in video mode with video missing |
| Orchestrator.Describe | src/youcube/yc_download.py:466-490 | the descriptor, which carries the queue only when it is non-empty, and the file list: audio, then video in video mode |
| Orchestrator.Finish | src/youcube/yc_download.py:443-490 | the cache checks, fetch, transcodes and result built by appending compute `FiniteRun` |
| Orchestrator.Download | src/youcube/yc_download.py:232-490 | the whole method computes `Resolve`: the same outcome and the same trace |
| DownloadProperties.DownloadStepsActions | src/youcube/yc_download.py:448-456 | the fetch step runs exactly one external action, the fetch itself |
| DownloadProperties.AudioStepsActions | src/youcube/yc_download.py:188-229 | audio conversion runs exactly one action, the FFmpeg transcode |
| DownloadProperties.VideoStepsActions | src/youcube/yc_download.py:141-185 | video conversion runs exactly one action, the Sanjuuni transcode at the given dimensions |
| DownloadProperties.FiniteMediaActionsAndFiles | src/youcube/yc_download.py:443-490 | on the finite path the actions equal the plan: fetch when audio is missing or, in video mode, video is missing; then audio; then video. The result is the descriptor, the audio file name, the video file name only in video mode, and no continuation |
| DownloadProperties.FetchRunsIffSomethingMissing | src/youcube/yc_download.py:445-456 | on every finite-media request, whether or not the fetch raises, the fetch runs exactly when audio is missing, or video mode is on and video is missing |
| DownloadProperties.TranscodesRunIffMissing | src/youcube/yc_download.py:460-464 | audio is transcoded iff missing; video iff video mode and missing; audio before video |
| DownloadProperties.FinitePlanTranscodes | src/youcube/yc_download.py:458-464 | in the plan, audio is transcoded iff missing, video iff video mode and missing, and the audio transcode immediately precedes the video one |
| DownloadProperties.AllCachedDoesNoWork | src/youcube/yc_download.py:445-464 | with everything cached there is no action, and the files are still returned |
| DownloadProperties.FetchFailureRaises | src/youcube/yc_download.py:456 | a fetch that raises ends the request with that exception, after the fetch and nothing more |
| DownloadProperties.AudioFailureIsReportedNotFatal | src/youcube/yc_download.py:224-229 | a nonzero FFmpeg status sends "Faild to convert audio!" and the media is still returned |
| DownloadProperties.VideoFailureIsReportedNotFatal | src/youcube/yc_download.py:180-185 | a nonzero Sanjuuni status sends "Faild to convert video!" and the media is still returned |
| DownloadProperties.OutcomeIgnoresTranscoders | src/youcube/yc_download.py:466-490 | the returned triple does not depend on transcoder output or exit status |
| DownloadProperties.VideoOfDirectUrlIsRejected | src/youcube/yc_download.py:250-256 | a video request for a direct-stream URL gets the livestream error with an empty trace |
| DownloadProperties.VideoOfLivestreamIsRejected | src/youcube/yc_download.py:412-418 | a video request for a live record gets the livestream error with no action |
| DownloadProperties.DirectUrlIsAPointer | src/youcube/yc_download.py:257-267 | an audio request for a direct URL returns: its `live-` identity; the URL as title; no counts; is_live; the audio file; the URL and identity as continuation; and nothing is sent |
| DownloadProperties.DirectRecordIsAPointer | src/youcube/yc_download.py:392-408 | a direct-looking record returns: the `live-` identity of the picked URL, falling back to the extracted URL; the record's title, falling back to that URL; the counts; is_live; no action |
| DownloadProperties.LiveAudioRequest | src/youcube/yc_download.py:419-441 | a live record returns its id with the picked URL as continuation, or "Could not resolve livestream audio URL" when no truthy URL is picked; no action |
| DownloadProperties.ExtractionIsAnnounced | src/youcube/yc_download.py:343-350 | every request that is not a direct URL first sends "Getting resource information ..." |
| DownloadProperties.ErrorRepliesCarryNothing | src/youcube/yc_download.py:412-428 | an error reply has no files, no continuation and no action |
| DownloadProperties.ContinuationIffLive | src/youcube/yc_download.py:392-441 | a continuation is returned exactly with a live descriptor; it names that identity, and comes with the lone audio file, no queue and no action |
| DownloadProperties.PlaylistExpansion | src/youcube/yc_download.py:374-380 | without a resolver queue, N entries yield entry 0 as the current item and the other N - 1 ids in order as the queue |
| DownloadProperties.EmptyPlaylistRaises | src/youcube/yc_download.py:374-380 | a playlist without entries raises |
| DownloadProperties.ResolverQueueMeetsPlaylist | src/youcube/yc_download.py:354-380 | with a resolver queue, the pop drops the queue's head; entry 0 is both the current item and queued |
| DownloadProperties.NonPlaylistKeepsQueue | src/youcube/yc_download.py:374 | a record that is not a playlist leaves the resolver's queue as it is |
| DownloadProperties.PreparePlaylist | src/youcube/yc_download.py:365-390 | a playlist (a generic one needs a domain) prepares entry 0 with the other ids queued. A flat first entry is replaced by its re-extraction with the queue kept, or raises when that fails |
| DownloadProperties.GenericWithoutDomainRaises | src/youcube/yc_download.py:367-368 | a generic record without a domain raises, whatever is queued |
| DownloadProperties.GenericRecordIdentity | src/youcube/yc_download.py:367-368 | a generic record with a domain gets `g<domain><id>`, which is never a live identity |

## Left out

- The websocket, the event loop and `run_coroutine_threadsafe` are not modelled. Sends are recorded in order in the trace, which assumes they are delivered in submission order.
- The temporary directory is not modelled, nor is the transcoders' input file `listdir(temp_dir)[0]`. The transcoders are modelled only as their output lines and exit status.
- Failure to launch a transcoder is not modelled.
- `load_config`, the cookie file, JS runtimes and the yt-dlp option dictionary are left out, because they only configure the extraction service.
- yt-dlp itself is left out. `extract_info` is modelled as a function from a URL to a record, or to failure. `process_ie_result` is modelled as a function from a record to its hook calls and whether it returned.
- The music-service resolver is reduced to the request's `SpotifyAnswer`: the URL it chose and the ids it queued. Its call to `spotify_url_processor.auto` is not modelled.
- `urlparse` and `sha1` are caller-supplied functions. The digest is constrained only to be 40 lower-case hex digits.
- `cap_width_and_height`, the file-name helpers, the cache checks and the two text clean-up helpers are caller-supplied functions, because `yc_utils` is not part of this model.
- `create_data_folder_if_not_present`, logging and the `NO_COLOR` prefixes are left out, because they have no effect on the returned values or on the messages.
- The environment variables `FFMPEG_PATH`, `SANJUUNI_PATH` and `DISABLE_OPENCL` are left out. They choose the two executables and one Sanjuuni argument, and are fixed for the whole process. They affect the messages only through the transcoder runs, which `runFfmpeg` and `runSanjuuni` stand for.
- `src/youcube/__main__.py` is not part of this model. It is a launcher that runs `ycf-server.py` and holds no logic of its own. The server that calls `download` is not part of this model either.
- StreamUrl.Lower: lower-cases ASCII letters only. Python's `str.lower` also maps non-ASCII letters. This never changes the classifier's verdict: the only non-ASCII characters whose lower case contains ASCII letters are U+0130, which lowers to `i` followed by a combining dot, and U+212A, which lowers to `k`. Neither `i` nor `k` occurs in any extension, and every other non-ASCII character stays non-ASCII, so it cannot match an extension either way.
- A record without an `id` is not modelled, because the id is always a string here. A missing key and a key holding `None` are both `None`.
- Non-string values where the source expects strings are not modelled, and neither are a `None` playlist `entries` or a `None` `formats`.
- Bitrates and durations are real numbers. NaN and the comparison of mixed types are not modelled.
- MediaInfo.PickAudioUrlNoneIff: holds only when every audio format carries a `url`. Without that, `pick_audio_url` also returns None when the picked format has no `url`, and `PickAudioUrl` models that case as well.
