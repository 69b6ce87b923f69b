/**
 * The two shapes of regular expression the YouTube id extractors use, matched by explicit
 * scans that follow a backtracking regex search: the leftmost start position wins, and at a
 * position the alternatives are tried in their written order.
 *
 *  - `Prefixed(alternatives, tail)`: one of the literal alternatives, then a captured tail;
 *  - `Anchored(finalNewline)`: the whole input is exactly eleven id characters, where
 *    `finalNewline` lets one trailing newline follow (Python's `$`; JavaScript's `$`
 *    without the `m` flag does not).
 */
module VideoIdPatterns {
  import opened Wrappers
  import opened Text

  /** `[a-zA-Z0-9_-]`. */
  predicate IdChar(c: char) {
    ('a' <= c <= 'z') || ('A' <= c <= 'Z') || ('0' <= c <= '9') || c == '_' || c == '-'
  }

  /** `[^&\n?#]`. */
  predicate RunChar(c: char) {
    c != '&' && c != '\n' && c != '?' && c != '#'
  }

  lemma IdCharIsRunChar(c: char)
    ensures IdChar(c) ==> RunChar(c)
  {
  }

  predicate AllId(s: string) {
    forall k :: 0 <= k < |s| ==> IdChar(s[k])
  }

  /** The captured tail: `([^&\n?#]+)`, or `([a-zA-Z0-9_-]{11})`. */
  datatype Tail = MaximalRun | ExactlyEleven

  datatype Pattern = Prefixed(alternatives: seq<string>, tail: Tail) | Anchored(finalNewline: bool)

  /** `youtube\.com\/watch\?v=|youtu\.be\/|youtube\.com\/embed\/`. */
  const UrlPrefixes: seq<string> := ["youtube.com/watch?v=", "youtu.be/", "youtube.com/embed/"]

  /** The length of the run of `RunChar`s starting at `j`. */
  function RunLength(s: string, j: nat): (n: nat)
    requires j <= |s|
    decreases |s| - j
    ensures j + n <= |s|
    ensures forall k :: j <= k < j + n ==> RunChar(s[k])
    ensures j + n == |s| || !RunChar(s[j + n])
  {
    if j == |s| || !RunChar(s[j]) then 0 else 1 + RunLength(s, j + 1)
  }

  /** What the tail captures when it starts at `j`; a greedy run gives back nothing, so it is maximal. */
  function TailMatch(tail: Tail, s: string, j: nat): (c: Option<string>)
    ensures c.Some? ==> j + |c.value| <= |s| && c.value == s[j..j + |c.value|]
    ensures tail.MaximalRun? ==>
              (c.Some? <==> j < |s| && RunChar(s[j]))
    ensures tail.MaximalRun? && c.Some? ==>
              c.value != [] && (forall k :: 0 <= k < |c.value| ==> RunChar(c.value[k]))
              && (j + |c.value| == |s| || !RunChar(s[j + |c.value|]))
    ensures tail.ExactlyEleven? ==>
              (c.Some? <==> j + 11 <= |s| && AllId(s[j..j + 11]))
    ensures tail.ExactlyEleven? && c.Some? ==> |c.value| == 11 && AllId(c.value)
  {
    if j > |s| then None
    else match tail
      case MaximalRun =>
        var n := RunLength(s, j);
        if n == 0 then None else Some(s[j..j + n])
      case ExactlyEleven =>
        if j + 11 <= |s| && AllId(s[j..j + 11]) then Some(s[j..j + 11]) else None
  }

  /** Alternative `k` occurs at `i` and the tail matches right after it. */
  predicate AltWorks(alts: seq<string>, tail: Tail, s: string, i: nat, k: nat) {
    k < |alts| && OccursAt(s, i, alts[k]) && TailMatch(tail, s, i + |alts[k]|).Some?
  }

  /** The first alternative at or after `from`, in written order, that works at `i`. */
  function AltIndex(alts: seq<string>, tail: Tail, s: string, i: nat, from: nat): (r: Option<nat>)
    decreases |alts| - from
    ensures r.Some? ==> from <= r.value && AltWorks(alts, tail, s, i, r.value)
    ensures r.Some? ==> forall k :: from <= k < r.value ==> !AltWorks(alts, tail, s, i, k)
    ensures r.None? ==> forall k :: from <= k ==> !AltWorks(alts, tail, s, i, k)
  {
    if from >= |alts| then None
    else if AltWorks(alts, tail, s, i, from) then Some(from)
    else AltIndex(alts, tail, s, i, from + 1)
  }

  /** What the pattern captures when its match starts at `i`. */
  function MatchAt(alts: seq<string>, tail: Tail, s: string, i: nat): (c: Option<string>)
    ensures c.Some? <==> AltIndex(alts, tail, s, i, 0).Some?
  {
    match AltIndex(alts, tail, s, i, 0)
    case None => None
    case Some(k) => TailMatch(tail, s, i + |alts[k]|)
  }

  /** The leftmost start position at or after `from` where the pattern matches. */
  function FirstMatchStart(alts: seq<string>, tail: Tail, s: string, from: nat): (r: Option<nat>)
    decreases |s| + 1 - from
    ensures r.Some? ==> from <= r.value <= |s| && AltIndex(alts, tail, s, r.value, 0).Some?
    ensures r.Some? ==> forall j :: from <= j < r.value ==> AltIndex(alts, tail, s, j, 0).None?
    ensures r.None? ==> forall j :: from <= j <= |s| ==> AltIndex(alts, tail, s, j, 0).None?
  {
    if from > |s| then None
    else if AltIndex(alts, tail, s, from, 0).Some? then Some(from)
    else FirstMatchStart(alts, tail, s, from + 1)
  }

  /** The characters a capture of `p` is made of. */
  predicate CaptureShape(p: Pattern, c: string) {
    if p.Prefixed? && p.tail.MaximalRun? then
      c != [] && forall k :: 0 <= k < |c| ==> RunChar(c[k])
    else
      |c| == 11 && AllId(c)
  }

  /** A search with a prefixed pattern: the capture at the leftmost position where it matches. */
  function MatchPrefixed(alts: seq<string>, tail: Tail, s: string): (c: Option<string>)
    ensures c.Some? ==> CaptureShape(Prefixed(alts, tail), c.value)
    ensures c.None? <==> forall j :: 0 <= j <= |s| ==> AltIndex(alts, tail, s, j, 0).None?
    ensures c.Some? ==> c == MatchAt(alts, tail, s, FirstMatchStart(alts, tail, s, 0).value)
  {
    match FirstMatchStart(alts, tail, s, 0)
    case None => None
    case Some(i) =>
      assert AltIndex(alts, tail, s, i, 0).Some?;
      MatchAt(alts, tail, s, i)
  }

  /** A match with an anchored id pattern: the whole text, or all of it but one final newline when allowed. */
  function MatchAnchored(finalNewline: bool, s: string): (c: Option<string>)
    ensures c.Some? <==> ((|s| == 11 && AllId(s)) || (finalNewline && |s| == 12 && s[11] == '\n' && AllId(s[..11])))
    ensures c.Some? ==> c.value == s[..11] && CaptureShape(Anchored(finalNewline), c.value)
  {
    if |s| == 11 && AllId(s) then Some(s)
    else if finalNewline && |s| == 12 && s[11] == '\n' && AllId(s[..11]) then Some(s[..11])
    else None
  }

  /** `re.search(p, s).group(1)` / `s.match(p)[1]`, or `None` when there is no match. */
  function MatchPattern(p: Pattern, s: string): (c: Option<string>)
    ensures c.Some? ==> CaptureShape(p, c.value)
  {
    match p
    case Prefixed(alts, tail) => MatchPrefixed(alts, tail, s)
    case Anchored(finalNewline) => MatchAnchored(finalNewline, s)
  }

  /** The index of the first pattern in the list that matches. */
  function FirstMatchingPattern(patterns: seq<Pattern>, s: string, from: nat): (r: Option<nat>)
    decreases |patterns| - from
    ensures r.Some? ==> from <= r.value < |patterns| && MatchPattern(patterns[r.value], s).Some?
    ensures r.Some? ==> forall k :: from <= k < r.value ==> MatchPattern(patterns[k], s).None?
    ensures r.None? ==> forall k :: from <= k < |patterns| ==> MatchPattern(patterns[k], s).None?
  {
    if from >= |patterns| then None
    else if MatchPattern(patterns[from], s).Some? then Some(from)
    else FirstMatchingPattern(patterns, s, from + 1)
  }

  /** The capture of the first pattern that matches: the loop `for pattern in patterns`. */
  function FirstCapture(patterns: seq<Pattern>, s: string): (c: Option<string>)
    ensures c.Some? ==> exists k :: 0 <= k < |patterns| && MatchPattern(patterns[k], s) == c
                                     && CaptureShape(patterns[k], c.value)
    ensures c.None? <==> forall k :: 0 <= k < |patterns| ==> MatchPattern(patterns[k], s).None?
  {
    match FirstMatchingPattern(patterns, s, 0)
    case None => None
    case Some(k) => MatchPattern(patterns[k], s)
  }

  /** Every URL prefix ends in a character that is neither an id character nor a newline. */
  lemma PrefixEnds()
    ensures forall p :: p in UrlPrefixes ==>
              |p| > 0 && !IdChar(p[|p| - 1]) && p[|p| - 1] != '\n'
  {
  }

  /** No URL prefix occurs in a text made of id characters and newlines: each ends in `/` or `=`. */
  lemma NoPrefixIn(s: string, j: nat, k: nat)
    requires k < |UrlPrefixes|
    requires forall i :: 0 <= i < |s| ==> IdChar(s[i]) || s[i] == '\n'
    ensures !OccursAt(s, j, UrlPrefixes[k])
  {
    var p := UrlPrefixes[k];
    PrefixEnds();
    assert p in UrlPrefixes;
    if j + |p| <= |s| {
      assert s[j..j + |p|][|p| - 1] == s[j + |p| - 1];
    }
  }

  /** A bare id, or an id followed by one newline, is never matched by the URL pattern. */
  lemma UrlPatternMissesBareId(id: string, tail: Tail, suffix: string)
    requires AllId(id) && (suffix == [] || suffix == "\n")
    ensures MatchPattern(Prefixed(UrlPrefixes, tail), id + suffix).None?
  {
    var s := id + suffix;
    assert forall i :: 0 <= i < |s| ==> IdChar(s[i]) || s[i] == '\n' by {
      forall i | 0 <= i < |s| ensures IdChar(s[i]) || s[i] == '\n' {
        if i < |id| { assert s[i] == id[i]; } else { assert s[i] == suffix[i - |id|]; }
      }
    }
    forall j | 0 <= j <= |s|
      ensures AltIndex(UrlPrefixes, tail, s, j, 0).None?
    {
      forall k | 0 <= k < |UrlPrefixes| ensures !OccursAt(s, j, UrlPrefixes[k]) {
        NoPrefixIn(s, j, k);
      }
    }
  }

  /** At one position at most one URL prefix occurs: they part at their sixth or thirteenth character. */
  lemma PrefixesExclusive(s: string, i: nat, k1: nat, k2: nat)
    requires k1 < |UrlPrefixes| && k2 < |UrlPrefixes|
    requires OccursAt(s, i, UrlPrefixes[k1]) && OccursAt(s, i, UrlPrefixes[k2])
    ensures k1 == k2
  {
    var p1, p2 := UrlPrefixes[k1], UrlPrefixes[k2];
    assert s[i + 5] == p1[5] == p2[5];
    if k1 != 1 && k2 != 1 {
      assert s[i + 12] == p1[12] == p2[12];
    }
  }

  /** A URL prefix at the very start, followed by a tail match: that tail is the capture. */
  lemma PrefixAtStart(k: nat, tail: Tail, s: string)
    requires k < |UrlPrefixes| && OccursAt(s, 0, UrlPrefixes[k])
    requires TailMatch(tail, s, |UrlPrefixes[k]|).Some?
    ensures MatchPattern(Prefixed(UrlPrefixes, tail), s) == TailMatch(tail, s, |UrlPrefixes[k]|)
  {
    assert AltWorks(UrlPrefixes, tail, s, 0, k);
    var k' := AltIndex(UrlPrefixes, tail, s, 0, 0).value;
    PrefixesExclusive(s, 0, k, k');
    assert FirstMatchStart(UrlPrefixes, tail, s, 0) == Some(0);
  }
}
