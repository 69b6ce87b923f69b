/** The landing page (Frontend/Pages/Home.tsx): the id read from the typed URL and what it enables. */
module HomePage {
  import opened Wrappers
  import opened Text
  import opened VideoIdPatterns

  /** The page's two patterns: a URL with a maximal id run, then a whole-input bare id. */
  const FrontPatterns: seq<Pattern> := [Prefixed(UrlPrefixes, MaximalRun), Anchored(false)]

  /** `extractVideoId(url)`: the first pattern's capture, or `null`. */
  function ExtractVideoId(url: string): (r: Option<string>)
    ensures r.Some? ==> r.value != []
    ensures r.Some? ==> forall k :: 0 <= k < |r.value| ==> RunChar(r.value[k])
    ensures r.None? <==> MatchPattern(FrontPatterns[0], url).None? && MatchPattern(FrontPatterns[1], url).None?
  {
    var r := FirstCapture(FrontPatterns, url);
    assert r.Some? ==> forall k :: 0 <= k < |r.value| ==> RunChar(r.value[k]) by {
      forall k | r.Some? && 0 <= k < |r.value| ensures RunChar(r.value[k]) {
        IdCharIsRunChar(r.value[k]);
      }
    }
    r
  }

  /** The URL pattern is tried first: when it matches, the bare-id pattern is never consulted. */
  lemma UrlPatternFirst(url: string)
    ensures MatchPattern(FrontPatterns[0], url).Some? ==> ExtractVideoId(url) == MatchPattern(FrontPatterns[0], url)
    ensures MatchPattern(FrontPatterns[0], url).None? ==> ExtractVideoId(url) == MatchPattern(FrontPatterns[1], url)
  {
    var r := FirstMatchingPattern(FrontPatterns, url, 0);
    if MatchPattern(FrontPatterns[0], url).None? && r.Some? {
      assert r.value == 1;
    }
  }

  /** After one of the URL prefixes at the start, the id is the whole run up to `&`, `?`, `#` or a newline. */
  lemma ShareLinkId(k: nat, id: string, rest: string)
    requires k < |UrlPrefixes|
    requires id != [] && forall j :: 0 <= j < |id| ==> RunChar(id[j])
    requires rest == [] || !RunChar(rest[0])
    ensures ExtractVideoId(UrlPrefixes[k] + id + rest) == Some(id)
  {
    var p := UrlPrefixes[k];
    var s := p + id + rest;
    assert s[..|p|] == p;
    assert s[|p|..|p| + |id|] == id;
    assert |p| + |id| == |s| || s[|p| + |id|] == rest[0];
    assert RunLength(s, |p|) == |id|;
    PrefixAtStart(k, MaximalRun, s);
    UrlPatternFirst(s);
  }

  /** A bare id counts only as the whole input: eleven id characters, with no trailing newline. */
  lemma BareId(id: string)
    requires |id| == 11 && AllId(id)
    ensures ExtractVideoId(id) == Some(id)
    ensures ExtractVideoId(id + "\n").None?
  {
    UrlPatternMissesBareId(id, MaximalRun, []);
    assert id + [] == id;
    UrlPatternFirst(id);
    UrlPatternMissesBareId(id, MaximalRun, "\n");
    UrlPatternFirst(id + "\n");
  }

  /** The `maxresdefault` thumbnail address of a video. */
  function ThumbnailFor(videoId: string): string {
    "https://img.youtube.com/vi/" + videoId + "/maxresdefault.jpg"
  }

  /** The preview image, shown for a truthy id. */
  function Thumbnail(videoId: Option<string>): Option<string> {
    if Truthy(videoId) then Some(ThumbnailFor(videoId.value)) else None
  }

  /** Where Start Chat navigates, when it is enabled (`disabled={!videoId}`). */
  function StartChatTarget(videoId: Option<string>): Option<string> {
    if Truthy(videoId) then Some("/chat?videoId=" + videoId.value) else None
  }

  /** Exactly when an id was read, the thumbnail is shown and Start Chat leads to the chat page with it. */
  lemma ControlsFollowId(url: string)
    ensures var id := ExtractVideoId(url);
            (Thumbnail(id).Some? <==> id.Some?) && (StartChatTarget(id).Some? <==> id.Some?)
    ensures var id := ExtractVideoId(url);
            id.Some? ==> Thumbnail(id) == Some(ThumbnailFor(id.value))
                         && StartChatTarget(id) == Some("/chat?videoId=" + id.value)
  {
  }
}
