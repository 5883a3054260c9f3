/**
 * URL-shape classification of direct audio streams (`is_direct_audio_stream_url`).
 * Parsing a URL into scheme and path is left to the caller: the classifier works
 * on an already parsed `ParsedUrl`.
 */
module StreamUrl {

  /** The two components of a parsed URL that the classifier looks at. */
  datatype ParsedUrl = ParsedUrl(scheme: string, path: string)

  /** The container extensions that mark a direct audio stream, in table order. */
  const DirectAudioExtensions: seq<string> :=
    [".mp3", ".aac", ".m4a", ".ogg", ".opus", ".flac", ".wav", ".m3u8"]

  /** The same extensions without their dot, as bare final path segments. */
  const DirectAudioNames: set<string> :=
    {"mp3", "aac", "m4a", "ogg", "opus", "flac", "wav", "m3u8"}

  predicate IsHttpScheme(scheme: string) {
    scheme == "http" || scheme == "https"
  }

  function LowerChar(c: char): char {
    if 'A' <= c <= 'Z' then (c as int + 32) as char else c
  }

  /** Lower-casing of a path, character by character. */
  function Lower(s: string): (r: string)
    ensures |r| == |s|
    ensures forall i :: 0 <= i < |s| ==> r[i] == LowerChar(s[i])
  {
    seq(|s|, i requires 0 <= i < |s| => LowerChar(s[i]))
  }

  /** `s.rstrip("/")`: the longest prefix of `s` that does not end in a slash. */
  function StripTrailingSlashes(s: string): (r: string)
    ensures |r| <= |s| && r == s[..|r|]
    ensures r == [] || r[|r| - 1] != '/'
    ensures forall i :: |r| <= i < |s| ==> s[i] == '/'
    decreases |s|
  {
    if |s| > 0 && s[|s| - 1] == '/' then StripTrailingSlashes(s[..|s| - 1]) else s
  }

  /** `s.rsplit("/", 1)[-1]`: everything after the last slash, or all of `s` if it has none. */
  function LastSegment(s: string): (r: string)
    ensures |r| <= |s| && r == s[|s| - |r|..]
    ensures '/' !in r
    ensures |r| < |s| ==> s[|s| - |r| - 1] == '/'
    decreases |s|
  {
    if |s| == 0 || s[|s| - 1] == '/' then ""
    else LastSegment(s[..|s| - 1]) + [s[|s| - 1]]
  }

  predicate EndsWith(s: string, suffix: string) {
    |suffix| <= |s| && s[|s| - |suffix|..] == suffix
  }

  /** `any(s.endswith(x) for x in suffixes)`. */
  function EndsWithAny(s: string, suffixes: seq<string>): (r: bool)
    ensures r <==> exists i :: 0 <= i < |suffixes| && EndsWith(s, suffixes[i])
    decreases |suffixes|
  {
    if |suffixes| == 0 then false
    else
      var rest := EndsWithAny(s, suffixes[1..]);
      assert forall i :: 1 <= i < |suffixes| ==> suffixes[i] == suffixes[1..][i - 1];
      EndsWith(s, suffixes[0]) || rest
  }

  /** The path as the classifier compares it: lower-cased, trailing slashes removed. */
  function NormalizedPath(path: string): string {
    StripTrailingSlashes(Lower(path))
  }

  /** `is_direct_audio_stream_url` on an already parsed URL. */
  predicate IsDirectAudioStreamUrl(u: ParsedUrl) {
    if !IsHttpScheme(u.scheme) then false
    else
      var path := NormalizedPath(u.path);
      if EndsWithAny(path, DirectAudioExtensions) then true
      else if path == "" then false
      else LastSegment(path) in DirectAudioNames
  }

  /** The bare names are exactly the table's extensions with their leading dot removed. */
  lemma DirectAudioNamesMatchExtensions()
    ensures forall n :: n in DirectAudioNames <==>
      exists i :: 0 <= i < |DirectAudioExtensions| && n == DirectAudioExtensions[i][1..]
  {
    var exts := DirectAudioExtensions;
    assert exts[0][1..] == "mp3" && exts[1][1..] == "aac" && exts[2][1..] == "m4a";
    assert exts[3][1..] == "ogg" && exts[4][1..] == "opus" && exts[5][1..] == "flac";
    assert exts[6][1..] == "wav" && exts[7][1..] == "m3u8";
  }

  /** A URL whose scheme is neither http nor https is never a direct stream, whatever its path. */
  lemma NonHttpSchemeIsNeverDirect(u: ParsedUrl)
    requires !IsHttpScheme(u.scheme)
    ensures !IsDirectAudioStreamUrl(u)
  {
  }

  /**
   * For an http(s) URL the classifier holds exactly when the normalized path ends with
   * one of the eight extensions, or its last segment is one of them without the dot.
   */
  lemma DirectAudioStreamUrlCharacterization(u: ParsedUrl)
    ensures IsDirectAudioStreamUrl(u) <==>
      IsHttpScheme(u.scheme) &&
      exists i :: 0 <= i < |DirectAudioExtensions| &&
        (EndsWith(NormalizedPath(u.path), DirectAudioExtensions[i]) ||
         LastSegment(NormalizedPath(u.path)) == DirectAudioExtensions[i][1..])
  {
    DirectAudioNamesMatchExtensions();
    var path := NormalizedPath(u.path);
    if path == "" {
      assert LastSegment(path) == "";
      forall i | 0 <= i < |DirectAudioExtensions|
        ensures LastSegment(path) != DirectAudioExtensions[i][1..]
      {
        assert |DirectAudioExtensions[i]| >= 2;
      }
    }
  }

  lemma LowerIdempotent(s: string)
    ensures Lower(Lower(s)) == Lower(s)
  {
  }

  lemma LowerAppend(s: string, t: string)
    ensures Lower(s + t) == Lower(s) + Lower(t)
  {
  }

  /** The test is case-insensitive: lower-casing the path does not change the verdict. */
  lemma DirectAudioStreamUrlIgnoresCase(scheme: string, path: string)
    ensures IsDirectAudioStreamUrl(ParsedUrl(scheme, Lower(path))) ==
            IsDirectAudioStreamUrl(ParsedUrl(scheme, path))
  {
    LowerIdempotent(path);
  }

  /** Paths that differ only in letter case get the same verdict. */
  lemma DirectAudioStreamUrlSameUpToCase(scheme: string, p: string, q: string)
    requires Lower(p) == Lower(q)
    ensures IsDirectAudioStreamUrl(ParsedUrl(scheme, p)) == IsDirectAudioStreamUrl(ParsedUrl(scheme, q))
  {
  }

  /** The test ignores trailing slashes: appending one does not change the verdict. */
  lemma DirectAudioStreamUrlIgnoresTrailingSlash(scheme: string, path: string)
    ensures IsDirectAudioStreamUrl(ParsedUrl(scheme, path + "/")) ==
            IsDirectAudioStreamUrl(ParsedUrl(scheme, path))
  {
    LowerAppend(path, "/");
    var l := Lower(path + "/");
    assert l[..|l| - 1] == Lower(path);
    assert NormalizedPath(path + "/") == NormalizedPath(path);
  }

  /** The test ignores any run of trailing slashes. */
  lemma {:induction false} DirectAudioStreamUrlIgnoresTrailingSlashes(scheme: string, path: string, slashes: string)
    requires forall i :: 0 <= i < |slashes| ==> slashes[i] == '/'
    ensures IsDirectAudioStreamUrl(ParsedUrl(scheme, path + slashes)) ==
            IsDirectAudioStreamUrl(ParsedUrl(scheme, path))
    decreases |slashes|
  {
    if |slashes| > 0 {
      var shorter := slashes[..|slashes| - 1];
      assert path + slashes == (path + shorter) + "/";
      DirectAudioStreamUrlIgnoresTrailingSlash(scheme, path + shorter);
      DirectAudioStreamUrlIgnoresTrailingSlashes(scheme, path, shorter);
    } else {
      assert path + slashes == path;
    }
  }

  /** A plain file URL with a direct extension is a direct stream. */
  lemma FileUrlIsDirect()
    ensures IsDirectAudioStreamUrl(ParsedUrl("https", "/stream.mp3"))
  {
    assert EndsWith(NormalizedPath("/stream.mp3"), ".mp3");
  }

  /** Upper case and a trailing slash do not hide the extension. */
  lemma UpperCaseTrailingSlashUrlIsDirect()
    ensures IsDirectAudioStreamUrl(ParsedUrl("http", "/Radio/LIVE.OPUS/"))
  {
    assert Lower("/Radio/LIVE.OPUS/") == "/radio/live.opus/";
    assert StripTrailingSlashes("/radio/live.opus/") == "/radio/live.opus";
    assert EndsWith("/radio/live.opus", ".opus");
  }

  /** A bare final segment naming an extension is a direct stream. */
  lemma BareSegmentUrlIsDirect()
    ensures IsDirectAudioStreamUrl(ParsedUrl("https", "/listen/mp3"))
  {
    assert NormalizedPath("/listen/mp3") == "/listen/mp3";
    assert LastSegment("/listen/mp3") == "mp3";
  }

  /** The root path is not a direct stream. */
  lemma RootUrlIsNotDirect()
    ensures !IsDirectAudioStreamUrl(ParsedUrl("https", "/"))
  {
    assert NormalizedPath("/") == "";
  }
}
