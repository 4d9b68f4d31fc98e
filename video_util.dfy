/**
 * YouTube URL validation, video-id extraction, oEmbed metadata and the
 * transcript truncation of `src/utils/video.util.ts`.
 */
module VideoUtil {
  import opened Outcomes
  import opened Strings
  import opened Effects
  import opened Constants

  // ---------------------------------------------------------------------------
  // isValidYouTubeUrl: /^(https?:\/\/)?(www\.)?(youtube\.com|youtu\.?be)\/.+/

  const Schemes: set<string> := {"", "http://", "https://"}
  const Wwws: set<string> := {"", "www."}
  /** `youtube\.com|youtu\.?be`: the optional dot gives both `youtu.be` and `youtube`. */
  const Hosts: set<string> := {"youtube.com", "youtu.be", "youtube"}

  /** The regular expression read left to right, trying each alternative of each group. */
  predicate IsValidYouTubeUrl(url: string) {
    exists s | s in Schemes && StartsWith(url, s) :: AfterScheme(url[|s|..])
  }

  predicate AfterScheme(u: string) {
    exists w | w in Wwws && StartsWith(u, w) :: AfterWww(u[|w|..])
  }

  predicate AfterWww(u: string) {
    exists h | h in Hosts && StartsWith(u, h) :: AfterHost(u[|h|..])
  }

  /** `\/.+` without an end anchor: a slash and one character other than a line terminator. */
  predicate AfterHost(u: string) {
    |u| >= 2 && u[0] == '/' && !IsLineTerminator(u[1])
  }

  /** The language of the expression: an optional scheme, an optional `www.`, a host, `/`, and a non-terminator. */
  ghost predicate YouTubeUrlShape(url: string) {
    exists s, w, h, rest :: s in Schemes && w in Wwws && h in Hosts
      && |rest| >= 1 && !IsLineTerminator(rest[0]) && url == s + w + h + "/" + rest
  }

  lemma IsValidYouTubeUrlMeansShape(url: string)
    ensures IsValidYouTubeUrl(url) <==> YouTubeUrlShape(url)
  {
    if IsValidYouTubeUrl(url) {
      ValidHasShape(url);
    }
    if YouTubeUrlShape(url) {
      ShapeIsValid(url);
    }
  }

  lemma ValidHasShape(url: string)
    requires IsValidYouTubeUrl(url)
    ensures YouTubeUrlShape(url)
  {
    var s :| s in Schemes && StartsWith(url, s) && AfterScheme(url[|s|..]);
    var u := url[|s|..];
    var w :| w in Wwws && StartsWith(u, w) && AfterWww(u[|w|..]);
    var v := u[|w|..];
    var h :| h in Hosts && StartsWith(v, h) && AfterHost(v[|h|..]);
    var rest := Decompose(url, s, w, h);
  }

  lemma ShapeIsValid(url: string)
    requires YouTubeUrlShape(url)
    ensures IsValidYouTubeUrl(url)
  {
    var s, w, h, rest :| s in Schemes && w in Wwws && h in Hosts
      && |rest| >= 1 && !IsLineTerminator(rest[0]) && url == s + w + h + "/" + rest;
    Compose(s, w, h, rest);
    var u := url[|s|..];
    var v := u[|w|..];
    assert StartsWith(v, h) && AfterHost(v[|h|..]);
    assert AfterWww(v);
    assert StartsWith(u, w);
    assert AfterScheme(u);
  }

  /** Peeling scheme, `www.` and host off a URL leaves `/` and the rest. */
  lemma Decompose(url: string, s: string, w: string, h: string) returns (rest: string)
    requires StartsWith(url, s) && StartsWith(url[|s|..], w) && StartsWith(url[|s|..][|w|..], h)
    requires AfterHost(url[|s|..][|w|..][|h|..])
    ensures |rest| >= 1 && !IsLineTerminator(rest[0]) && url == s + w + h + "/" + rest
  {
    var u := url[|s|..];
    var v := u[|w|..];
    rest := v[|h|..][1..];
    assert v[|h|..] == "/" + rest;
    assert v == h + v[|h|..];
    assert u == w + v;
    assert url == s + u;
  }

  lemma Compose(s: string, w: string, h: string, rest: string)
    ensures StartsWith(s + w + h + "/" + rest, s)
    ensures (s + w + h + "/" + rest)[|s|..] == w + h + "/" + rest
    ensures StartsWith(w + h + "/" + rest, w)
    ensures (w + h + "/" + rest)[|w|..] == h + "/" + rest
    ensures StartsWith(h + "/" + rest, h)
    ensures (h + "/" + rest)[|h|..] == "/" + rest
  {
    assert (s + w + h + "/" + rest)[..|s|] == s;
    assert (s + w + h + "/" + rest)[|s|..] == w + h + "/" + rest;
    assert (w + h + "/" + rest)[..|w|] == w;
    assert (w + h + "/" + rest)[|w|..] == h + "/" + rest;
    assert (h + "/" + rest)[..|h|] == h;
  }

  // ---------------------------------------------------------------------------
  // extractVideoId

  /** `[\w-]` */
  predicate IsIdChar(c: char) {
    ('a' <= c <= 'z') || ('A' <= c <= 'Z') || ('0' <= c <= '9') || c == '_' || c == '-'
  }

  /** The three patterns, in the order they are tried. */
  datatype IdPattern =
    | SlashOrV   // (?:v=|\/)([\w-]{11})(?:\?|&|\/|$)
    | YoutuBe    // youtu\.be\/([\w-]{11})(?:\?|&|$)
    | Shorts     // \/shorts\/([\w-]{11})(?:\?|&|$)

  const IdLength := 11

  /** The characters that may follow the id. */
  function Terminators(p: IdPattern): set<char> {
    if p == SlashOrV then {'?', '&', '/'} else {'?', '&'}
  }

  /** Eleven id characters at `j`, then a terminator of the pattern or the end of the string. */
  predicate IdAt(p: IdPattern, url: string, j: int) {
    0 <= j && j + IdLength <= |url|
    && (forall k | j <= k < j + IdLength :: IsIdChar(url[k]))
    && (j + IdLength == |url| || url[j + IdLength] in Terminators(p))
  }

  /** Where the id starts for a match of `p` beginning at `i`. */
  function IdStart(p: IdPattern, url: string, i: nat): nat {
    match p
    case SlashOrV => if i < |url| && url[i] == '/' then i + 1 else i + 2
    case YoutuBe => i + |"youtu.be/"|
    case Shorts => i + |"/shorts/"|
  }

  /** Pattern `p` matches with its match starting at index `i`. */
  predicate MatchAt(p: IdPattern, url: string, i: nat) {
    match p
    case SlashOrV =>
      (OccursAt(url, "v=", i) || OccursAt(url, "/", i)) && IdAt(p, url, IdStart(p, url, i))
    case YoutuBe => OccursAt(url, "youtu.be/", i) && IdAt(p, url, IdStart(p, url, i))
    case Shorts => OccursAt(url, "/shorts/", i) && IdAt(p, url, IdStart(p, url, i))
  }

  /** `url.match(p)` from index `i` on: the leftmost index where a match starts. */
  function Search(p: IdPattern, url: string, i: nat): (r: Option<nat>)
    requires i <= |url|
    ensures r.Some? ==> i <= r.value <= |url| && MatchAt(p, url, r.value)
    ensures r.Some? ==> forall k | i <= k < r.value :: !MatchAt(p, url, k)
    ensures r.None? ==> forall k | i <= k <= |url| :: !MatchAt(p, url, k)
    decreases |url| - i
  {
    if MatchAt(p, url, i) then Some(i)
    else if i == |url| then None
    else Search(p, url, i + 1)
  }

  /** The captured id of a match of `p`, if any. */
  function MatchId(p: IdPattern, url: string): Option<string> {
    match Search(p, url, 0)
    case None => None
    case Some(i) => Some(url[IdStart(p, url, i)..IdStart(p, url, i) + IdLength])
  }

  /** `extractVideoId(url)`: the first pattern, in order, that matches gives the id. */
  function ExtractVideoId(url: string): (r: Option<string>)
    ensures r.Some? ==> |r.value| == IdLength && forall k | 0 <= k < |r.value| :: IsIdChar(r.value[k])
  {
    var patterns := [SlashOrV, YoutuBe, Shorts];
    FirstMatch(patterns, url)
  }

  function FirstMatch(patterns: seq<IdPattern>, url: string): (r: Option<string>)
    ensures r.Some? ==> |r.value| == IdLength && forall k | 0 <= k < |r.value| :: IsIdChar(r.value[k])
  {
    if |patterns| == 0 then None
    else
      var m := MatchId(patterns[0], url);
      if m.Some? then
        var i := Search(patterns[0], url, 0).value;
        var j := IdStart(patterns[0], url, i);
        assert forall k | 0 <= k < IdLength :: m.value[k] == url[j + k];
        m
      else FirstMatch(patterns[1..], url)
  }

  /** The id follows `v=` or `/` and is followed by `?`, `&`, `/` or the end of the URL. */
  predicate IdInContext(url: string, id: string) {
    exists j | 0 <= j <= |url| - |id| :: OccursAt(url, id, j) && IdAt(SlashOrV, url, j)
      && ((j >= 2 && url[j - 2..j] == "v=") || (j >= 1 && url[j - 1] == '/'))
  }

  /**
   * The second and third patterns never decide the result: wherever one of
   * them matches, the first matches too (the `/` before the id), so the
   * result is always the first pattern's.
   */
  lemma LaterPatternsSubsumed(url: string, p: IdPattern, i: nat)
    requires p != SlashOrV && MatchAt(p, url, i)
    ensures MatchAt(SlashOrV, url, IdStart(p, url, i) - 1)
  {
    var j := IdStart(p, url, i);
    if p == YoutuBe {
      assert url[i..i + 9][8] == '/';
    } else {
      assert url[i..i + 8][7] == '/';
    }
    assert url[j - 1] == '/';
    assert OccursAt(url, "/", j - 1);
  }

  /** The result is exactly the first pattern's: found iff `(?:v=|\/)` precedes eleven id characters and a terminator. */
  lemma ExtractVideoIdIsFirstPattern(url: string)
    ensures ExtractVideoId(url) == MatchId(SlashOrV, url)
    ensures ExtractVideoId(url).Some? <==> exists i | 0 <= i <= |url| :: MatchAt(SlashOrV, url, i)
  {
    var patterns := [SlashOrV, YoutuBe, Shorts];
    if MatchId(SlashOrV, url).None? {
      NoLaterMatch(url, YoutuBe);
      NoLaterMatch(url, Shorts);
      assert patterns[1..] == [YoutuBe, Shorts] && [YoutuBe, Shorts][1..] == [Shorts] && [Shorts][1..] == [];
      assert FirstMatch([Shorts], url) == None;
      assert FirstMatch([YoutuBe, Shorts], url) == None;
    }
  }

  lemma NoLaterMatch(url: string, p: IdPattern)
    requires p != SlashOrV && MatchId(SlashOrV, url).None?
    ensures MatchId(p, url).None?
  {
    var r := Search(p, url, 0);
    if r.Some? {
      LaterPatternsSubsumed(url, p, r.value);
    }
  }

  /** A found id sits in the URL right after `v=` or `/` and before `?`, `&`, `/` or the end. */
  lemma ExtractedIdInContext(url: string)
    requires ExtractVideoId(url).Some?
    ensures IdInContext(url, ExtractVideoId(url).value)
  {
    ExtractVideoIdIsFirstPattern(url);
    var i := Search(SlashOrV, url, 0).value;
    var j := IdStart(SlashOrV, url, i);
    var id := url[j..j + IdLength];
    assert ExtractVideoId(url).value == id;
    assert OccursAt(url, id, j) && IdAt(SlashOrV, url, j);
    if i < |url| && url[i] == '/' {
      assert j >= 1 && url[j - 1] == '/';
    } else {
      assert OccursAt(url, "v=", i);
      assert j >= 2 && url[j - 2..j] == "v=";
    }
  }

  // ---------------------------------------------------------------------------
  // extractYouTubeVideoMetadata

  datatype VideoMetadata = VideoMetadata(thumbnail: Option<string>, title: Option<string>, channelName: Option<string>)

  const EmptyMetadata := VideoMetadata(None, None, None)
  const UnknownTitle := "Unknown Title"
  const UnknownChannel := "Unknown Channel"

  function OEmbedUrl(videoId: string): string {
    "https://www.youtube.com/oembed?url=https://www.youtube.com/watch?v=" + videoId + "&format=json"
  }

  function ThumbnailUrl(videoId: string): string {
    "https://img.youtube.com/vi/" + videoId + "/hqdefault.jpg"
  }

  /**
   * `extractYouTubeVideoMetadata(url)`: never fails; all three fields null
   * unless the id is found and oEmbed answers. An answer gives the thumbnail
   * of the id, and its title and author, each replaced by its "Unknown"
   * text when missing or empty.
   */
  function ExtractYouTubeVideoMetadata(oEmbed: string -> OEmbedReply, url: string): (r: Traced<VideoMetadata>)
    ensures ExtractVideoId(url).None? ==> r.value == EmptyMetadata && r.calls == []
    ensures ExtractVideoId(url).Some? ==>
      var id := ExtractVideoId(url).value;
      var answer := oEmbed(OEmbedUrl(id));
      && r.calls == [FetchOEmbed(OEmbedUrl(id))]
      && (r.value == EmptyMetadata <==> answer.OEmbedFailed?)
      && (answer.OEmbed? ==>
            && r.value.thumbnail == Some(ThumbnailUrl(id))
            && r.value.title == Some(if Truthy(answer.title) then answer.title.value else UnknownTitle)
            && r.value.channelName == Some(if Truthy(answer.authorName) then answer.authorName.value else UnknownChannel))
    ensures r.value.thumbnail.Some? == r.value.title.Some? == r.value.channelName.Some?
    ensures r.value.thumbnail.Some? ==> r.value.title.value != "" && r.value.channelName.value != ""
  {
    match ExtractVideoId(url)
    case None => Traced(EmptyMetadata, [])
    case Some(id) =>
      var calls := [FetchOEmbed(OEmbedUrl(id))];
      match oEmbed(OEmbedUrl(id))
      case OEmbedFailed => Traced(EmptyMetadata, calls)
      case OEmbed(title, author) =>
        Traced(VideoMetadata(
          Some(ThumbnailUrl(id)),
          Some(if Truthy(title) then title.value else UnknownTitle),
          Some(if Truthy(author) then author.value else UnknownChannel)), calls)
  }

  // ---------------------------------------------------------------------------
  // fetchYouTubeTranscript

  const TranscriptFailed := "Could not fetch transcript from YouTube: "

  /** `Math.floor(MAX_TRANSCRIPT_TOKENS / 4)` */
  const WordBudget: nat := MaxTranscriptTokens / 4

  /** The segments joined with spaces, split on white-space runs, cut to the budget and re-joined. */
  function FetchYouTubeTranscript(innertube: string -> Reply<seq<string>>, videoId: string): (r: Result<string>)
    ensures r.Fail? <==> innertube(videoId).Threw?
    ensures r.Fail? ==> r.error == Error(Plain, TranscriptFailed + innertube(videoId).message)
  {
    match innertube(videoId)
    case Threw(msg) => Fail(Error(Plain, TranscriptFailed + msg))
    case Done(segments) =>
      var words := SplitSpaces(Join(segments, " "));
      Ok(Join(Take(words, WordBudget), " "))
  }

  /**
   * The transcript is the first words, at most 375 of them, of the
   * white-space-normalised segment text, so it is a prefix of that text and
   * equals it when there are no more words than the budget.
   */
  lemma FetchYouTubeTranscriptIsWordPrefix(innertube: string -> Reply<seq<string>>, videoId: string)
    requires innertube(videoId).Done?
    ensures var words := SplitSpaces(Join(innertube(videoId).value, " "));
      var r := FetchYouTubeTranscript(innertube, videoId).value;
      && r == Join(words[..if |words| <= WordBudget then |words| else WordBudget], " ")
      && StartsWith(Join(words, " "), r)
      && (|words| <= WordBudget ==> r == Join(words, " "))
  {
    var words := SplitSpaces(Join(innertube(videoId).value, " "));
    var n := if |words| <= WordBudget then |words| else WordBudget;
    assert Take(words, WordBudget) == words[..n];
    JoinTakeIsPrefix(words, n, " ");
    assert words[..|words|] == words;
  }
}
