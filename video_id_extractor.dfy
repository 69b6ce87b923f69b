/**
 * The back-end id extractors: `VideoIDExtractor` (utils.py, default patterns from config.py)
 * and `extract_video_id` (Backend/main.py), which carries its own copy of the same patterns.
 */
module VideoIdExtractor {
  import opened Wrappers
  import opened VideoIdPatterns
  import HomePage

  const InvalidMessage: string := "Invalid YouTube URL or video ID"

  /** `Config.youtube_patterns`: a URL followed by exactly eleven id characters, then a bare id. */
  const DefaultPatterns: seq<Pattern> := [Prefixed(UrlPrefixes, ExactlyEleven), Anchored(true)]

  /** The pattern list written out in `extract_video_id`. */
  const MainPatterns: seq<Pattern> := [Prefixed(UrlPrefixes, ExactlyEleven), Anchored(true)]

  datatype Extractor = Extractor(patterns: seq<Pattern>)

  /** `VideoIDExtractor(patterns)`: given patterns replace the defaults, unless none or an empty list is given. */
  function NewExtractor(patterns: Option<seq<Pattern>>): (e: Extractor)
    ensures patterns.Some? && patterns.value != [] ==> e.patterns == patterns.value
    ensures patterns.None? || patterns.value == [] ==> e.patterns == DefaultPatterns
  {
    if patterns.Some? && patterns.value != [] then Extractor(patterns.value) else Extractor(DefaultPatterns)
  }

  /** A search over the pattern list: the first match's capture, or the `ValueError` message. */
  function ExtractWith(patterns: seq<Pattern>, url: string): (r: Result<string, string>)
    ensures r.Failure? <==> forall k :: 0 <= k < |patterns| ==> MatchPattern(patterns[k], url).None?
    ensures r.Failure? ==> r.error == InvalidMessage
    ensures r.Success? ==> exists k :: 0 <= k < |patterns| && MatchPattern(patterns[k], url) == Some(r.value)
                                       && CaptureShape(patterns[k], r.value)
  {
    match FirstCapture(patterns, url)
    case None => Failure(InvalidMessage)
    case Some(c) => Success(c)
  }

  /** `VideoIDExtractor.extract(url)`. */
  function Extract(e: Extractor, url: string): Result<string, string> {
    ExtractWith(e.patterns, url)
  }

  /** `extract_video_id(url)`. */
  function MainExtractVideoId(url: string): Result<string, string> {
    ExtractWith(MainPatterns, url)
  }

  /** With the default patterns every id found is eleven id characters. */
  lemma DefaultIdShape(url: string)
    ensures var r := Extract(NewExtractor(None), url);
            r.Success? ==> |r.value| == 11 && AllId(r.value)
  {
  }

  /** The command-line extractor agrees with the default `VideoIDExtractor` on every input. */
  lemma MainAgreesWithDefault(url: string)
    ensures MainExtractVideoId(url) == Extract(NewExtractor(None), url)
    ensures var r := MainExtractVideoId(url);
            r.Success? ==> |r.value| == 11 && AllId(r.value)
  {
  }

  /** After a URL prefix, exactly eleven id characters are taken, whatever follows them. */
  lemma ShareLinkId(k: nat, id: string, more: string)
    requires k < |UrlPrefixes| && |id| == 11 && AllId(id)
    ensures Extract(NewExtractor(None), UrlPrefixes[k] + id + more) == Success(id)
  {
    var p := UrlPrefixes[k];
    var s := p + id + more;
    assert s[..|p|] == p;
    assert s[|p|..|p| + 11] == id;
    PrefixAtStart(k, ExactlyEleven, s);
  }

  /** A bare id is accepted alone or with one trailing newline, which is not part of the result. */
  lemma BareId(id: string)
    requires |id| == 11 && AllId(id)
    ensures Extract(NewExtractor(None), id) == Success(id)
    ensures Extract(NewExtractor(None), id + "\n") == Success(id)
  {
    UrlPatternMissesBareId(id, ExactlyEleven, []);
    assert id + [] == id && id[..11] == id;
    assert MatchPattern(DefaultPatterns[0], id).None?;
    assert MatchPattern(DefaultPatterns[1], id) == Some(id);
    assert FirstMatchingPattern(DefaultPatterns, id, 0) == Some(1);
    UrlPatternMissesBareId(id, ExactlyEleven, "\n");
    assert (id + "\n")[..11] == id;
  }

  /**
   * The front end and the back end read different ids from the same share link when more id
   * characters follow the eleventh: the page keeps the whole run, the server the first eleven.
   */
  lemma FrontAndBackDiffer(id: string, more: string)
    requires |id| == 11 && AllId(id) && more != [] && AllId(more)
    ensures HomePage.ExtractVideoId("youtu.be/" + id + more) == Some(id + more)
    ensures Extract(NewExtractor(None), "youtu.be/" + id + more) == Success(id)
  {
    var run := id + more;
    forall j | 0 <= j < |run| ensures RunChar(run[j]) {
      IdCharIsRunChar(run[j]);
    }
    var s := "youtu.be/" + id + more;
    assert UrlPrefixes[1] == "youtu.be/";
    assert s == UrlPrefixes[1] + run + [];
    HomePage.ShareLinkId(1, run, []);
    ShareLinkId(1, id, more);
  }
}
