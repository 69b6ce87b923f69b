/**
 * String helpers shared by the front end (JavaScript) and the back end (Python):
 * whitespace trimming, ASCII lowercasing, splitting on one character, joining,
 * substring search and decimal rendering of a number.
 */
module Text {

  /**
   * Whitespace as JavaScript's `trim` and the regular-expression class `\s` see it: the
   * WhiteSpace characters (tab, vertical tab, form feed, space, no-break space, the byte
   * order mark and the other space separators) and the LineTerminator characters.
   */
  predicate IsJsSpace(c: char) {
    var n := c as int;
    (0x09 <= n <= 0x0D) || n == 0x20 || n == 0xA0 || n == 0x1680 || (0x2000 <= n <= 0x200A)
    || n == 0x2028 || n == 0x2029 || n == 0x202F || n == 0x205F || n == 0x3000 || n == 0xFEFF
  }

  /**
   * Whitespace as Python's `str.isspace` and so `str.strip()` see it. Unlike JavaScript it
   * includes the separators U+001C to U+001F and U+0085, and excludes the byte order mark.
   */
  predicate IsPySpace(c: char) {
    var n := c as int;
    (0x09 <= n <= 0x0D) || (0x1C <= n <= 0x20) || n == 0x85 || n == 0xA0 || n == 0x1680
    || (0x2000 <= n <= 0x200A) || n == 0x2028 || n == 0x2029 || n == 0x202F || n == 0x205F || n == 0x3000
  }

  /** A string with no whitespace (as `ws` says) at either end. */
  predicate IsTrimmed(s: string, ws: char -> bool) {
    s == [] || (!ws(s[0]) && !ws(s[|s| - 1]))
  }

  /** Drops the leading whitespace. */
  function TrimStart(s: string, ws: char -> bool): (r: string)
    ensures |r| <= |s| && r == s[|s| - |r|..]
    ensures r == [] || !ws(r[0])
    ensures forall i :: 0 <= i < |s| - |r| ==> ws(s[i])
  {
    if s != [] && ws(s[0]) then
      var r := TrimStart(s[1..], ws);
      assert forall i :: 1 <= i < |s| ==> s[i] == s[1..][i - 1];
      r
    else s
  }

  /** One leading whitespace character before a word is all that `TrimStart` drops. */
  lemma TrimStartOneSpace(body: string, ws: char -> bool)
    requires ws(' ')
    requires body != [] && !ws(body[0])
    ensures TrimStart(" " + body, ws) == body
  {
    var s := " " + body;
    assert s[1..] == body;
    assert TrimStart(s, ws) == TrimStart(body, ws);
  }

  /** Drops the trailing whitespace. */
  function TrimEnd(s: string, ws: char -> bool): (r: string)
    ensures |r| <= |s| && r == s[..|r|]
    ensures r == [] || !ws(r[|r| - 1])
    ensures forall i :: |r| <= i < |s| ==> ws(s[i])
  {
    if s != [] && ws(s[|s| - 1]) then TrimEnd(s[..|s| - 1], ws) else s
  }

  /**
   * JavaScript `String.prototype.trim` (with `IsJsSpace`) and Python `str.strip()` (with
   * `IsPySpace`): the input with the whitespace at both ends cut off and nothing else changed.
   */
  function Trim(s: string, ws: char -> bool): (r: string)
    ensures IsTrimmed(r, ws)
    ensures exists i, j :: 0 <= i <= j <= |s| && r == s[i..j]
                           && (forall k :: 0 <= k < i ==> ws(s[k]))
                           && (forall k :: j <= k < |s| ==> ws(s[k]))
    ensures IsTrimmed(s, ws) ==> r == s
    ensures (forall i :: 0 <= i < |s| ==> ws(s[i])) ==> r == []
  {
    var t := TrimStart(s, ws);
    var r := TrimEnd(t, ws);
    SuffixPrefixInfix(s, t, r, ws);
    r
  }

  /** A prefix `r` of a suffix `t` of `s`, followed in `t` by whitespace only. */
  lemma SuffixPrefixInfix(s: string, t: string, r: string, ws: char -> bool)
    requires |t| <= |s| && t == s[|s| - |t|..]
    requires |r| <= |t| && r == t[..|r|]
    requires forall k :: |r| <= k < |t| ==> ws(t[k])
    ensures var i := |s| - |t|;
            r == s[i..i + |r|] && forall k :: i + |r| <= k < |s| ==> ws(s[k])
  {
    var i := |s| - |t|;
    assert s[i..][..|r|] == s[i..i + |r|];
    forall k | i + |r| <= k < |s| ensures ws(s[k]) {
      assert s[k] == t[k - i];
    }
  }

  lemma TrimIdempotent(s: string, ws: char -> bool)
    ensures Trim(Trim(s, ws), ws) == Trim(s, ws)
  {
  }

  /** ASCII lowercasing of one character; every other character is left alone. */
  function LowerChar(c: char): char {
    if 'A' <= c <= 'Z' then (c as int + 32) as char else c
  }

  /** `toLowerCase()` / `lower()` on ASCII letters. */
  function Lower(s: string): (r: string)
    ensures |r| == |s|
    ensures forall i :: 0 <= i < |s| ==> r[i] == LowerChar(s[i])
  {
    if s == [] then [] else [LowerChar(s[0])] + Lower(s[1..])
  }

  lemma LowerIdempotent(s: string)
    ensures Lower(Lower(s)) == Lower(s)
  {
  }

  /** The index of the first `c` in `s`, or `|s|` when there is none. */
  function IndexOfChar(s: string, c: char): (r: nat)
    ensures r <= |s|
    ensures forall i :: 0 <= i < r ==> s[i] != c
    ensures r < |s| ==> s[r] == c
    ensures c !in s <==> r == |s|
  {
    if s == [] then 0
    else if s[0] == c then 0
    else 1 + IndexOfChar(s[1..], c)
  }

  /** Concatenation of `parts` with `sep` between neighbours (JavaScript `join`, Python `sep.join`). */
  function Join(parts: seq<string>, sep: string): string {
    if |parts| == 0 then ""
    else if |parts| == 1 then parts[0]
    else parts[0] + sep + Join(parts[1..], sep)
  }

  /** JavaScript `s.split(sep)` for a one-character separator: always at least one part. */
  function Split(s: string, sep: char): (parts: seq<string>)
    ensures |parts| >= 1
    ensures forall i :: 0 <= i < |parts| ==> sep !in parts[i]
  {
    if s == [] then [""]
    else
      var tail := Split(s[1..], sep);
      if s[0] == sep then [""] + tail
      else [[s[0]] + tail[0]] + tail[1..]
  }

  /** The first part ends at the first separator; the rest are the parts of what follows it. */
  lemma {:induction false} SplitFirst(s: string, sep: char)
    ensures var i := IndexOfChar(s, sep);
            Split(s, sep)[0] == s[..i]
            && (i == |s| ==> |Split(s, sep)| == 1)
            && (i < |s| ==> Split(s, sep)[1..] == Split(s[i + 1..], sep))
  {
    if s != [] && s[0] != sep {
      SplitFirst(s[1..], sep);
      var i := IndexOfChar(s, sep);
      assert s[..i] == [s[0]] + s[1..][..i - 1];
      if i < |s| {
        assert s[1..][i - 1 + 1..] == s[i + 1..];
      }
    }
  }

  lemma JoinCons(p: string, ps: seq<string>, sep: string)
    requires ps != []
    ensures Join([p] + ps, sep) == p + sep + Join(ps, sep)
  {
    assert ([p] + ps)[1..] == ps;
  }

  lemma JoinPrepend(x: char, ps: seq<string>, sep: string)
    requires ps != []
    ensures Join([[x] + ps[0]] + ps[1..], sep) == [x] + Join(ps, sep)
  {
    if |ps| > 1 {
      JoinCons([x] + ps[0], ps[1..], sep);
      JoinCons(ps[0], ps[1..], sep);
      assert [ps[0]] + ps[1..] == ps;
    }
  }

  /** Splitting and re-joining with the same separator gives the input back. */
  lemma {:induction false} JoinSplit(s: string, sep: char)
    ensures Join(Split(s, sep), [sep]) == s
  {
    if s != [] {
      var tail := Split(s[1..], sep);
      JoinSplit(s[1..], sep);
      if s[0] == sep {
        JoinCons("", tail, [sep]);
      } else {
        JoinPrepend(s[0], tail, [sep]);
      }
      assert [s[0]] + s[1..] == s;
    }
  }

  lemma {:induction false} SplitNoSeparator(p: string, sep: char)
    requires sep !in p
    ensures Split(p, sep) == [p]
  {
    if p != [] {
      SplitNoSeparator(p[1..], sep);
      assert [p[0]] + p[1..] == p;
    }
  }

  lemma {:induction false} SplitAfterPart(p: string, s: string, sep: char)
    requires sep !in p
    ensures Split(p + [sep] + s, sep) == [p] + Split(s, sep)
  {
    if p == [] {
      assert p + [sep] + s == [sep] + s;
      assert ([sep] + s)[1..] == s;
    } else {
      var w := p + [sep] + s;
      assert w[0] == p[0] && w[1..] == p[1..] + [sep] + s;
      SplitAfterPart(p[1..], s, sep);
      assert [p[0]] + p[1..] == p;
    }
  }

  /** Joining parts free of the separator and splitting again gives the parts back. */
  lemma {:induction false} SplitJoin(parts: seq<string>, sep: char)
    requires parts != []
    requires forall i :: 0 <= i < |parts| ==> sep !in parts[i]
    ensures Split(Join(parts, [sep]), sep) == parts
  {
    if |parts| == 1 {
      SplitNoSeparator(parts[0], sep);
    } else {
      JoinCons(parts[0], parts[1..], [sep]);
      SplitAfterPart(parts[0], Join(parts[1..], [sep]), sep);
      SplitJoin(parts[1..], sep);
      assert [parts[0]] + parts[1..] == parts;
    }
  }

  /** `pat` occurs in `s` starting at index `i`. */
  predicate OccursAt(s: string, i: nat, pat: string) {
    i + |pat| <= |s| && s[i..i + |pat|] == pat
  }

  /** Substring test (Python `pat in s`). */
  predicate Contains(s: string, pat: string)
    decreases |s|
  {
    pat <= s || (s != [] && Contains(s[1..], pat))
  }

  /** An occurrence one place further into `s` is an occurrence in `s` without its head. */
  lemma OccursShift(s: string, i: nat, pat: string)
    requires s != []
    ensures OccursAt(s, i + 1, pat) <==> OccursAt(s[1..], i, pat)
  {
    if i + 1 + |pat| <= |s| {
      assert s[i + 1..i + 1 + |pat|] == s[1..][i..i + |pat|];
    }
  }

  /** An occurrence at the start is a prefix. */
  lemma OccursAtStart(s: string, pat: string)
    ensures OccursAt(s, 0, pat) <==> pat <= s
  {
    if |pat| <= |s| {
      assert s[0..|pat|] == s[..|pat|];
    }
  }

  lemma {:induction false} ContainsIff(s: string, pat: string)
    ensures Contains(s, pat) <==> exists i: nat :: OccursAt(s, i, pat)
  {
    OccursAtStart(s, pat);
    if pat <= s {
    } else if s == [] {
      forall i: nat ensures !OccursAt(s, i, pat) {
        if i > 0 {
          assert i + |pat| > |s|;
        }
      }
    } else {
      ContainsIff(s[1..], pat);
      if Contains(s[1..], pat) {
        var j: nat :| OccursAt(s[1..], j, pat);
        OccursShift(s, j, pat);
      } else {
        forall i: nat ensures !OccursAt(s, i, pat) {
          if i > 0 {
            OccursShift(s, i - 1, pat);
          }
        }
      }
    }
  }

  /** A pattern inside the tail of a string is inside the string. */
  lemma {:induction false} ContainsInSuffix(a: string, b: string, pat: string)
    requires Contains(b, pat)
    ensures Contains(a + b, pat)
  {
    if a != [] {
      ContainsInSuffix(a[1..], b, pat);
      var s := a + b;
      assert s[1..] == a[1..] + b;
      assert s != [] && Contains(s[1..], pat);
    } else {
      assert a + b == b;
    }
  }

  function DigitChar(d: nat): (c: char)
    requires d < 10
    ensures '0' <= c <= '9'
  {
    "0123456789"[d]
  }

  /** Decimal rendering of a non-negative number, as template strings print it. */
  function NatToString(n: nat): (r: string)
    ensures r != []
  {
    if n < 10 then [DigitChar(n)] else NatToString(n / 10) + [DigitChar(n % 10)]
  }

  /** The rendering is made of decimal digits, with no leading zero. */
  lemma {:induction false} NatToStringDigits(n: nat)
    ensures forall i :: 0 <= i < |NatToString(n)| ==> '0' <= NatToString(n)[i] <= '9'
    ensures n >= 10 ==> NatToString(n)[0] != '0'
  {
    if n >= 10 {
      NatToStringDigits(n / 10);
      if n / 10 >= 10 {
      } else {
        assert NatToString(n)[0] == DigitChar(n / 10);
      }
    }
  }
}
