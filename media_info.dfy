/**
 * The parts of a metadata record returned by the extraction service that the
 * download logic reads, and the two classifiers over it: the choice of an audio
 * URL (`pick_audio_url`) and the direct-stream test (`is_direct_audio_stream_info`).
 * A key missing from the record and a key holding `None` are both `None` here, as
 * `dict.get` does not tell them apart; a key holding `0` or `""` is `Some`.
 */
module MediaInfo {
  import opened Wrappers
  import opened StreamUrl

  /** One entry of `formats`. Bitrates are numbers in kbit/s. */
  datatype Format = Format(
    acodec: Option<string>,
    vcodec: Option<string>,
    abr: Option<real>,
    tbr: Option<real>,
    url: Option<string>)

  /** A metadata record (`kind` is the `_type` key). A playlist holds its entries as records. */
  datatype Info = Info(
    id: string,
    extractor: Option<string>,
    webpageUrlDomain: Option<string>,
    kind: Option<string>,
    entries: seq<Info>,
    title: Option<string>,
    viewCount: Option<int>,
    likeCount: Option<int>,
    isLive: Option<bool>,
    liveStatus: Option<string>,
    url: Option<string>,
    formats: seq<Format>,
    protocol: Option<string>,
    vcodec: Option<string>,
    acodec: Option<string>,
    duration: Option<real>)

  /** The format carries audio: its `acodec` is not the string "none" (a missing codec counts). */
  predicate HasAudio(f: Format) {
    f.acodec != Some("none")
  }

  /** The format carries audio and declares no video. */
  predicate IsAudioOnly(f: Format) {
    HasAudio(f) && f.vcodec == Some("none")
  }

  /** Whether `f` is in the candidate list: audio-only formats, or else every audio-bearing one. */
  predicate Eligible(f: Format, audioOnly: bool) {
    if audioOnly then IsAudioOnly(f) else HasAudio(f)
  }

  /** `x or 0` for an optional bitrate. */
  function OrZero(x: Option<real>): real {
    if x.Some? then x.value else 0.0
  }

  /** The sort key `(abr or 0, tbr or 0)` of `a` is lexicographically below that of `b`. */
  predicate KeyLess(a: Format, b: Format) {
    OrZero(a.abr) < OrZero(b.abr) || (OrZero(a.abr) == OrZero(b.abr) && OrZero(a.tbr) < OrZero(b.tbr))
  }

  /**
   * The index that a stable descending sort of the eligible formats puts first:
   * the earliest eligible format whose key no other eligible format exceeds.
   */
  function FirstBest(fs: seq<Format>, audioOnly: bool): (r: Option<nat>)
    ensures r.None? <==> forall j :: 0 <= j < |fs| ==> !Eligible(fs[j], audioOnly)
    ensures r.Some? ==> r.value < |fs| && Eligible(fs[r.value], audioOnly)
    ensures r.Some? ==> forall j :: 0 <= j < |fs| && Eligible(fs[j], audioOnly) ==> !KeyLess(fs[r.value], fs[j])
    ensures r.Some? ==> forall j :: 0 <= j < r.value && Eligible(fs[j], audioOnly) ==> KeyLess(fs[j], fs[r.value])
    decreases |fs|
  {
    if |fs| == 0 then None
    else
      var rest := FirstBest(fs[1..], audioOnly);
      assert forall j :: 1 <= j < |fs| ==> fs[j] == fs[1..][j - 1];
      if !Eligible(fs[0], audioOnly) then
        if rest.None? then None else Some(rest.value + 1)
      else if rest.Some? && KeyLess(fs[0], fs[rest.value + 1]) then Some(rest.value + 1)
      else Some(0)
  }

  /** Some format of `fs` is audio-only, so only audio-only formats are candidates. */
  ghost predicate HasAudioOnly(fs: seq<Format>) {
    exists j :: 0 <= j < |fs| && IsAudioOnly(fs[j])
  }

  /**
   * `k` is the format `pick_audio_url` chooses from `fs`: a candidate (audio-only if any
   * format is, else audio-bearing), maximal under the key among candidates, and strictly
   * above every candidate before it (the sort is stable).
   */
  ghost predicate IsPick(fs: seq<Format>, k: int) {
    var audioOnly := HasAudioOnly(fs);
    && 0 <= k < |fs|
    && Eligible(fs[k], audioOnly)
    && (forall j :: 0 <= j < |fs| && Eligible(fs[j], audioOnly) ==> !KeyLess(fs[k], fs[j]))
    && (forall j :: 0 <= j < k && Eligible(fs[j], audioOnly) ==> KeyLess(fs[j], fs[k]))
  }

  /**
   * The format the stable descending sort puts first among the candidates (audio-only
   * formats if there are any, else audio-bearing ones), or None when no format carries audio.
   */
  function PickIndex(fs: seq<Format>): (r: Option<nat>)
    ensures r.None? <==> forall j :: 0 <= j < |fs| ==> !HasAudio(fs[j])
    ensures r.Some? ==> IsPick(fs, r.value)
  {
    var first := FirstBest(fs, true);
    if first.Some? then
      assert HasAudioOnly(fs) by { assert IsAudioOnly(fs[first.value]); }
      first
    else
      var second := FirstBest(fs, false);
      assert !HasAudioOnly(fs);
      second
  }

  /** `pick_audio_url`: the record's own `url` if truthy, else the `url` of the picked format. */
  function PickAudioUrl(info: Info): (r: Option<string>)
    ensures Truthy(info.url) ==> r == info.url
    ensures !Truthy(info.url) && (forall j :: 0 <= j < |info.formats| ==> !HasAudio(info.formats[j])) ==>
      r == None
    ensures !Truthy(info.url) && (exists j :: 0 <= j < |info.formats| && HasAudio(info.formats[j])) ==>
      exists k :: IsPick(info.formats, k) && r == info.formats[k].url
  {
    if Truthy(info.url) then info.url
    else
      match PickIndex(info.formats)
      case Some(k) => info.formats[k].url
      case None => None
  }

  /** The choice is unambiguous: at most one index satisfies `IsPick`. */
  lemma PickIsUnique(fs: seq<Format>, k1: int, k2: int)
    requires IsPick(fs, k1) && IsPick(fs, k2)
    ensures k1 == k2
  {
  }

  /**
   * When every audio-bearing format carries a URL, `pick_audio_url` returns `None`
   * exactly when the record's `url` is falsy and no format carries audio.
   */
  lemma PickAudioUrlNoneIff(info: Info)
    requires forall j :: 0 <= j < |info.formats| && HasAudio(info.formats[j]) ==> info.formats[j].url.Some?
    ensures PickAudioUrl(info) == None <==>
      !Truthy(info.url) && forall j :: 0 <= j < |info.formats| ==> !HasAudio(info.formats[j])
  {
    var k := PickIndex(info.formats);
    if !Truthy(info.url) && k.Some? {
      assert HasAudio(info.formats[k.value]);
    }
  }

  /** An audio-only format is preferred over any format that also carries video. */
  lemma PickPrefersAudioOnly(info: Info, k: int)
    requires !Truthy(info.url) && 0 <= k < |info.formats| && IsAudioOnly(info.formats[k])
    ensures exists p :: (IsPick(info.formats, p) && IsAudioOnly(info.formats[p]) &&
                         PickAudioUrl(info) == info.formats[p].url)
  {
    assert HasAudio(info.formats[k]);
    assert HasAudioOnly(info.formats);
    var p := PickIndex(info.formats).value;
    assert IsPick(info.formats, p);
  }

  /** The record's declared transport is plain http(s). */
  predicate HasHttpProtocol(info: Info) {
    info.protocol == Some("http") || info.protocol == Some("https")
  }

  /** The picked audio URL is truthy and has the shape of a direct audio stream. */
  predicate PickedUrlIsDirect(info: Info, parse: string -> ParsedUrl) {
    var audioUrl := PickAudioUrl(info);
    Truthy(audioUrl) && IsDirectAudioStreamUrl(parse(audioUrl.value))
  }

  /** `is_direct_audio_stream_info`; URL parsing is the caller's `parse`. */
  predicate IsDirectAudioStreamInfo(info: Info, parse: string -> ParsedUrl) {
    if PickedUrlIsDirect(info, parse) then true
    else if !HasHttpProtocol(info) then false
    else if Truthy(info.vcodec) && info.vcodec != Some("none") then false
    else if info.acodec == Some("none") then false
    else info.duration == None || info.duration == Some(0.0)
  }

  /**
   * Without a direct-shaped audio URL, a record is a direct stream exactly when it is
   * served over http(s), declares no real video codec, does not declare its audio codec
   * as "none", and has no duration or duration 0.
   */
  lemma DirectStreamInfoByDeclaration(info: Info, parse: string -> ParsedUrl)
    requires !PickedUrlIsDirect(info, parse)
    ensures IsDirectAudioStreamInfo(info, parse) <==>
      && HasHttpProtocol(info)
      && (info.vcodec == None || info.vcodec == Some("") || info.vcodec == Some("none"))
      && info.acodec != Some("none")
      && (info.duration == None || info.duration == Some(0.0))
  {
  }

  /** A direct-shaped picked URL settles the test, whatever the record's codecs and duration. */
  lemma DirectShapedUrlMakesDirectInfo(info: Info, parse: string -> ParsedUrl)
    requires Truthy(info.url) && IsDirectAudioStreamUrl(parse(info.url.value))
    ensures IsDirectAudioStreamInfo(info, parse)
  {
  }

  /** A record with a nonzero duration is a direct stream only through its picked URL's shape. */
  lemma TimedRecordIsDirectOnlyByUrl(info: Info, parse: string -> ParsedUrl)
    requires info.duration.Some? && info.duration.value != 0.0
    ensures IsDirectAudioStreamInfo(info, parse) <==> PickedUrlIsDirect(info, parse)
  {
  }
}
