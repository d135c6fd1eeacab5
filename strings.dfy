/**
 * The parts of Python's `str` that the modelled code relies on: `strip()`,
 * `strip(c)`, `rstrip(c)`, `startswith`, `endswith`, `in` and `split(None, 1)`,
 * together with `str(int)`.
 */
module Strings {

  import opened Wrappers

  /** The characters Python's `str.isspace()` accepts, which `strip()` and `split()` remove. */
  predicate IsSpace(c: char) {
    || c == ' '
    || '\t' <= c <= '\r'
    || '\U{1C}' <= c <= '\U{1F}'
    || c == '\U{85}' || c == '\U{A0}' || c == '\U{1680}'
    || '\U{2000}' <= c <= '\U{200A}'
    || c == '\U{2028}' || c == '\U{2029}' || c == '\U{202F}' || c == '\U{205F}' || c == '\U{3000}'
  }

  predicate NoSpace(s: string) {
    forall i :: 0 <= i < |s| ==> !IsSpace(s[i])
  }

  predicate AllSpace(s: string) {
    forall i :: 0 <= i < |s| ==> IsSpace(s[i])
  }

  /** Neither end of `s` is whitespace: what `strip()` leaves. */
  predicate Trimmed(s: string) {
    s == [] || (!IsSpace(s[0]) && !IsSpace(s[|s| - 1]))
  }

  predicate StartsWith(s: string, prefix: string) {
    |prefix| <= |s| && s[..|prefix|] == prefix
  }

  predicate EndsWith(s: string, suffix: string) {
    |suffix| <= |s| && s[|s| - |suffix|..] == suffix
  }

  /** `sub` occurs in `s` at index `i`. */
  predicate OccursAt(s: string, sub: string, i: int) {
    0 <= i <= |s| - |sub| && s[i..i + |sub|] == sub
  }

  /** Python's `sub in s`. */
  predicate Contains(s: string, sub: string) {
    exists i :: 0 <= i <= |s| - |sub| && OccursAt(s, sub, i)
  }

  /** `s.lstrip()` */
  function TrimStart(s: string): (r: string)
    ensures |r| <= |s| && r == s[|s| - |r|..]
    ensures AllSpace(s[..|s| - |r|])
    ensures r == [] || !IsSpace(r[0])
  {
    if s != [] && IsSpace(s[0]) then
      var r := TrimStart(s[1..]);
      SpaceBefore(s, r);
      r
    else
      assert s[..0] == [];
      s
  }

  /** A run of whitespace extended by one whitespace character at its front. */
  lemma SpaceBefore(s: string, r: string)
    requires s != [] && IsSpace(s[0]) && |r| <= |s| - 1
    requires r == s[1..][|s| - 1 - |r|..] && AllSpace(s[1..][..|s| - 1 - |r|])
    ensures r == s[|s| - |r|..] && AllSpace(s[..|s| - |r|])
  {
    var run, tail := s[..|s| - |r|], s[1..][..|s| - 1 - |r|];
    assert forall k :: 0 < k < |run| ==> run[k] == tail[k - 1];
  }

  /** `s.rstrip()` */
  function TrimEnd(s: string): (r: string)
    ensures |r| <= |s| && r == s[..|r|]
    ensures AllSpace(s[|r|..])
    ensures r == [] || !IsSpace(r[|r| - 1])
  {
    if s != [] && IsSpace(s[|s| - 1]) then
      var r := TrimEnd(s[..|s| - 1]);
      assert s[|r|..] == s[..|s| - 1][|r|..] + [s[|s| - 1]];
      r
    else
      assert s[|s|..] == [];
      s
  }

  /** `s.strip()`: whitespace removed from both ends, nothing else changed. */
  function Strip(s: string): (r: string)
    ensures Trimmed(r)
    ensures Trimmed(s) ==> r == s
    ensures r == [] <==> AllSpace(s)
  {
    StripOfTrimmed(s);
    StripEmpty(s);
    TrimEnd(TrimStart(s))
  }

  lemma StripOfTrimmed(s: string)
    ensures Trimmed(s) ==> TrimEnd(TrimStart(s)) == s
  {
    if Trimmed(s) { assert TrimStart(s) == s; }
  }

  lemma StripEmpty(s: string)
    ensures TrimEnd(TrimStart(s)) == [] <==> AllSpace(s)
  {
    var t := TrimStart(s);
    var r := TrimEnd(t);
    TrimStartEmpty(s);
    assert r == [] ==> t[|r|..] == t;
  }

  /** `r` sits in `s` at `i` with nothing but whitespace on either side. */
  predicate Padded(s: string, r: string, i: int) {
    0 <= i <= |s| - |r| && s[i..i + |r|] == r && AllSpace(s[..i]) && AllSpace(s[i + |r|..])
  }

  /** What `s.strip()` promises: `r` is `s` without its surrounding whitespace. */
  predicate IsStripOf(s: string, r: string) {
    Trimmed(r) && exists i :: 0 <= i <= |s| - |r| && Padded(s, r, i)
  }

  /** `Strip` keeps what `strip()` promises ... */
  lemma StripIsStripOf(s: string)
    ensures IsStripOf(s, Strip(s))
  {
    var t := TrimStart(s);
    var r := Strip(s);
    var i := |s| - |t|;
    assert s[i..i + |r|] == r;
    assert s[i + |r|..] == t[|r|..];
    assert Padded(s, r, i);
  }

  /** ... and it is the only text that does. */
  lemma StripOfUnique(s: string, r: string)
    requires IsStripOf(s, r)
    ensures r == Strip(s)
  {
    var i :| 0 <= i <= |s| - |r| && Padded(s, r, i);
    var pre, post := s[..i], s[i + |r|..];
    assert s == pre + r + post;
    if r == [] {
      assert forall k :: 0 <= k < |s| ==> IsSpace(s[k]) by {
        forall k | 0 <= k < |s| ensures IsSpace(s[k]) {
          if k < i { assert s[k] == pre[k]; } else { assert s[k] == post[k - i]; }
        }
      }
    } else {
      assert s == pre + (r + post);
      TrimStartOfRun(pre, r + post);
      TrimEndOfRun(r, post);
    }
  }

  /** `strip()` adds no character. */
  lemma StripKeepsOut(s: string, c: char)
    requires c !in s
    ensures c !in Strip(s)
  {
    var t := TrimStart(s);
    var r := TrimEnd(t);
    assert r == s[|s| - |t|..][..|r|];
    KeptOut(s[|s| - |t|..], |r|, c);
  }

  lemma KeptOut(s: string, n: nat, c: char)
    requires c !in s && n <= |s|
    ensures c !in s[..n]
  {
    assert forall k :: 0 <= k < n ==> s[..n][k] == s[k];
  }

  lemma {:induction false} TrimEndOfRun(rest: string, run: string)
    requires AllSpace(run)
    requires rest == [] || !IsSpace(rest[|rest| - 1])
    ensures TrimEnd(rest + run) == rest
  {
    if run != [] {
      var last := |run| - 1;
      assert (rest + run)[..|rest + run| - 1] == rest + run[..last];
      TrimEndOfRun(rest, run[..last]);
    } else {
      assert rest + run == rest;
    }
  }

  /** Removes every leading `c`. */
  function TrimStartChar(s: string, c: char): (r: string)
    ensures |r| <= |s| && r == s[|s| - |r|..]
    ensures forall i :: 0 <= i < |s| - |r| ==> s[i] == c
    ensures r == [] || r[0] != c
  {
    if s != [] && s[0] == c then TrimStartChar(s[1..], c) else s
  }

  /** `s.rstrip(c)`: every trailing `c` removed. */
  function TrimEndChar(s: string, c: char): (r: string)
    ensures |r| <= |s| && r == s[..|r|]
    ensures forall i :: |r| <= i < |s| ==> s[i] == c
    ensures r == [] || r[|r| - 1] != c
  {
    if s != [] && s[|s| - 1] == c then TrimEndChar(s[..|s| - 1], c) else s
  }

  /** Every character of `s` is `c`. */
  predicate AllChar(s: string, c: char) {
    forall i :: 0 <= i < |s| ==> s[i] == c
  }

  /** `r` sits in `s` at `i` with nothing but `c` on either side. */
  predicate PaddedBy(s: string, r: string, i: int, c: char) {
    0 <= i <= |s| - |r| && s[i..i + |r|] == r && AllChar(s[..i], c) && AllChar(s[i + |r|..], c)
  }

  /** What `s.strip(c)` promises: `r` is `s` without the `c` around it. */
  predicate IsStripCharOf(s: string, r: string, c: char) {
    (r == [] || (r[0] != c && r[|r| - 1] != c)) && exists i :: 0 <= i <= |s| - |r| && PaddedBy(s, r, i, c)
  }

  /** `s.strip(c)`: every leading and trailing `c` removed. */
  function StripChar(s: string, c: char): (r: string)
    ensures IsStripCharOf(s, r, c)
    ensures s == [] || (s[0] != c && s[|s| - 1] != c) ==> r == s
    ensures r == [] <==> AllChar(s, c)
  {
    var t := TrimStartChar(s, c);
    var r := TrimEndChar(t, c);
    StripCharEmpty(s, c);
    LeadingRun(s, c);
    TrailingRun(t, c);
    PrefixOfSuffix(s, t, r, c);
    assert r != [] ==> r[0] == t[0];
    r
  }

  /** `r` is a prefix of `t`, a suffix of `s`, and only `c` lies around it. */
  lemma PrefixOfSuffix(s: string, t: string, r: string, c: char)
    requires |t| <= |s| && t == s[|s| - |t|..] && AllChar(s[..|s| - |t|], c)
    requires |r| <= |t| && r == t[..|r|] && AllChar(t[|r|..], c)
    ensures PaddedBy(s, r, |s| - |t|, c)
  {
    assert s[|s| - |t| + |r|..] == t[|r|..];
  }

  lemma LeadingRun(s: string, c: char)
    ensures AllChar(s[..|s| - |TrimStartChar(s, c)|], c)
  {
    var n := |s| - |TrimStartChar(s, c)|;
    forall k | 0 <= k < n ensures s[..n][k] == c {
      assert s[..n][k] == s[k];
    }
  }

  lemma TrailingRun(t: string, c: char)
    ensures AllChar(t[|TrimEndChar(t, c)|..], c)
  {
    var n := |TrimEndChar(t, c)|;
    forall k | 0 <= k < |t| - n ensures t[n..][k] == c {
      assert t[n..][k] == t[n + k];
    }
  }

  lemma StripCharEmpty(s: string, c: char)
    ensures TrimEndChar(TrimStartChar(s, c), c) == [] <==> AllChar(s, c)
  {
    var t := TrimStartChar(s, c);
    var r := TrimEndChar(t, c);
    if r == [] {
      forall i | 0 <= i < |s| ensures s[i] == c {
        if i >= |s| - |t| {
          assert s[i] == t[i - (|s| - |t|)];
        }
      }
    } else {
      assert s[|s| - |t|] == t[0] == r[0];
    }
  }

  /** Only one text is `s` without the `c` around it, and `StripChar` returns it. */
  lemma StripCharOfUnique(s: string, r: string, c: char)
    requires IsStripCharOf(s, r, c)
    ensures r == StripChar(s, c)
  {
    var i :| 0 <= i <= |s| - |r| && PaddedBy(s, r, i, c);
    var pre, post := s[..i], s[i + |r|..];
    assert s == pre + r + post;
    if r == [] {
      forall k | 0 <= k < |s| ensures s[k] == c {
        if k < i { assert s[k] == pre[k]; } else { assert s[k] == post[k - i]; }
      }
    } else {
      assert s == pre + (r + post);
      TrimStartCharOfRun(pre, r + post, c);
      TrimEndCharOfRun(r, post, c);
    }
  }

  lemma {:induction false} TrimStartCharOfRun(run: string, rest: string, c: char)
    requires AllChar(run, c)
    requires rest == [] || rest[0] != c
    ensures TrimStartChar(run + rest, c) == rest
  {
    if run != [] {
      assert (run + rest)[1..] == run[1..] + rest;
      TrimStartCharOfRun(run[1..], rest, c);
    }
  }

  /** `rstrip(c)` removes exactly a trailing run of `c`. */
  lemma {:induction false} TrimEndCharOfRun(base: string, run: string, c: char)
    requires base == [] || base[|base| - 1] != c
    requires AllChar(run, c)
    ensures TrimEndChar(base + run, c) == base
    decreases |run|
  {
    if run == [] {
      assert base + run == base;
    } else {
      var shorter := run[..|run| - 1];
      assert (base + run)[..|base + run| - 1] == base + shorter;
      TrimEndCharOfRun(base, shorter, c);
    }
  }

  /** The index of the first `c` in `s`, if any. */
  function FirstIndex(s: string, c: char): (r: Option<nat>)
    ensures r.None? <==> c !in s
    ensures r.Some? ==> r.value < |s| && s[r.value] == c && c !in s[..r.value]
  {
    if s == [] then None
    else if s[0] == c then Some(0)
    else match FirstIndex(s[1..], c)
      case None => None
      case Some(i) => assert s[1..][..i] == s[1..i + 1]; Some(i + 1)
  }

  /** The number of leading characters of `s` that are not whitespace. */
  function TokenLength(s: string): (n: nat)
    ensures n <= |s| && NoSpace(s[..n])
    ensures n < |s| ==> IsSpace(s[n])
  {
    if s == [] || IsSpace(s[0]) then 0
    else
      var n := 1 + TokenLength(s[1..]);
      assert forall i :: 1 <= i < n ==> s[..n][i] == s[1..][..n - 1][i - 1];
      n
  }

  /**
   * `s` is whitespace up to `i`, then `word`, then a non-empty whitespace
   * run up to `j`, then `rest`.
   */
  predicate SplitAt(s: string, word: string, rest: string, i: int, j: int) {
    && 0 <= i && i + |word| < j && j + |rest| == |s|
    && s[i..i + |word|] == word && s[j..] == rest
    && AllSpace(s[..i]) && AllSpace(s[i + |word|..j])
  }

  /**
   * Python's `s.split(None, 1)`: leading whitespace is skipped, the first
   * word is cut off at the whitespace run that follows it, and what comes
   * after that run (trailing whitespace included) is the second part.
   */
  function SplitWhitespaceOnce(s: string): (parts: seq<string>)
    ensures |parts| <= 2
    ensures |parts| >= 1 ==> parts[0] != [] && NoSpace(parts[0])
    ensures |parts| == 2 ==> parts[1] != [] && !IsSpace(parts[1][0])
    ensures parts == [] <==> AllSpace(s)
  {
    TrimStartEmpty(s);
    SplitFrom(TrimStart(s))
  }

  /** `split(None, 1)` of a text that does not start with whitespace. */
  function SplitFrom(t: string): (parts: seq<string>)
    requires t == [] || !IsSpace(t[0])
    ensures |parts| <= 2
    ensures |parts| >= 1 ==> parts[0] != [] && NoSpace(parts[0])
    ensures |parts| == 2 ==> parts[1] != [] && !IsSpace(parts[1][0])
    ensures parts == [] <==> t == []
  {
    if t == [] then []
    else
      var n := TokenLength(t);
      assert n != 0 by { assert t[0] == t[..1][0]; }
      var rest := TrimStart(t[n..]);
      if rest == [] then [t[..n]] else [t[..n], rest]
  }

  /**
   * The parts are where `split(None, 1)` finds them: a single word has only
   * whitespace around it, and two parts are the first word and everything
   * after the whitespace run that follows it.
   */
  lemma SplitLocatesParts(s: string)
    ensures var parts := SplitWhitespaceOnce(s);
      && (|parts| == 1 ==> exists i :: 0 <= i <= |s| - |parts[0]| && Padded(s, parts[0], i))
      && (|parts| == 2 ==> exists i, j :: SplitAt(s, parts[0], parts[1], i, j))
  {
    var t := TrimStart(s);
    var lead := s[..|s| - |t|];
    assert s == lead + t;
    var parts := SplitFrom(t);
    SplitFromParts(t);
    if |parts| == 1 {
      ShiftPadded(lead, t, parts[0]);
    } else if |parts| == 2 {
      var j :| SplitAt(t, parts[0], parts[1], 0, j);
      ShiftSplitAt(lead, t, parts[0], parts[1], j);
    }
  }

  /** The parts of a text not starting with whitespace, located. */
  lemma SplitFromParts(t: string)
    requires t == [] || !IsSpace(t[0])
    ensures var parts := SplitFrom(t);
      && (|parts| == 1 ==> Padded(t, parts[0], 0))
      && (|parts| == 2 ==> exists j :: SplitAt(t, parts[0], parts[1], 0, j))
  {
    if t != [] {
      var n := TokenLength(t);
      var u := t[n..];
      var rest := TrimStart(u);
      CutParts(t, n, u, rest);
    }
  }

  lemma CutParts(t: string, n: nat, u: string, rest: string)
    requires n <= |t| && u == t[n..] && (n < |t| ==> IsSpace(t[n]))
    requires |rest| <= |u| && rest == u[|u| - |rest|..] && AllSpace(u[..|u| - |rest|])
    requires rest == [] || !IsSpace(rest[0])
    ensures rest == [] ==> Padded(t, t[..n], 0)
    ensures rest != [] ==> SplitAt(t, t[..n], rest, 0, |t| - |rest|)
  {
    assert t[0..n] == t[..n];
    if rest != [] {
      assert u[0] == t[n] && rest[0] == u[|u| - |rest|];
      assert t[n..|t| - |rest|] == u[..|u| - |rest|];
      assert t[|t| - |rest|..] == rest;
    } else {
      assert u[..|u|] == u;
    }
  }

  /** Whitespace put in front keeps a word padded, at a shifted index. */
  lemma ShiftPadded(lead: string, t: string, word: string)
    requires AllSpace(lead) && Padded(t, word, 0)
    ensures Padded(lead + t, word, |lead|)
  {
    var s := lead + t;
    assert s[..|lead|] == lead;
    assert s[|lead|..|lead| + |word|] == t[..|word|];
    assert s[|lead| + |word|..] == t[|word|..];
  }

  /** Whitespace put in front keeps a split, at shifted indices. */
  lemma ShiftSplitAt(lead: string, t: string, word: string, rest: string, j: int)
    requires AllSpace(lead) && SplitAt(t, word, rest, 0, j)
    ensures SplitAt(lead + t, word, rest, |lead|, |lead| + j)
  {
    var s := lead + t;
    assert s[..|lead|] == lead;
    assert s[|lead|..|lead| + |word|] == t[0..|word|];
    assert s[|lead| + |word|..|lead| + j] == t[|word|..j];
    assert s[|lead| + j..] == t[j..];
  }

  lemma TrimStartEmpty(s: string)
    ensures TrimStart(s) == [] <==> AllSpace(s)
  {
    var t := TrimStart(s);
    if t == [] {
      assert s == s[..|s| - |t|];
    } else {
      assert s[|s| - |t|] == t[0];
    }
  }

  /**
   * Conversely, whitespace, a word, a whitespace run and a text starting
   * with a non-space split into the word and that text.
   */
  lemma SplitAtUnique(s: string, word: string, rest: string, i: int, j: int)
    requires SplitAt(s, word, rest, i, j)
    requires word != [] && NoSpace(word)
    requires rest != [] && !IsSpace(rest[0])
    ensures SplitWhitespaceOnce(s) == [word, rest]
  {
    var lead, run := s[..i], s[i + |word|..j];
    assert s == lead + (word + run + rest);
    SplitOfLead(lead, word + run + rest);
    SplitWordRunRest(word, run, rest);
  }

  /** ... and a word with only whitespace around it is the single part. */
  lemma PaddedWordUnique(s: string, word: string, i: int)
    requires Padded(s, word, i)
    requires word != [] && NoSpace(word)
    ensures SplitWhitespaceOnce(s) == [word]
  {
    var lead, trail := s[..i], s[i + |word|..];
    assert s == lead + (word + trail);
    SplitOfLead(lead, word + trail);
    SplitWordTrail(word, trail);
  }

  /** Leading whitespace does not change the split. */
  lemma SplitOfLead(lead: string, w: string)
    requires AllSpace(lead)
    requires w != [] && !IsSpace(w[0])
    ensures SplitWhitespaceOnce(lead + w) == SplitWhitespaceOnce(w)
  {
    TrimStartOfRun(lead, w);
    assert TrimStart(w) == w;
  }

  /** A word with trailing whitespace is one part. */
  lemma SplitWordTrail(word: string, trail: string)
    requires word != [] && NoSpace(word)
    requires AllSpace(trail)
    ensures SplitWhitespaceOnce(word + trail) == [word]
  {
    var w := word + trail;
    assert TrimStart(w) == w;
    TokenLengthOfWord(word, trail);
    assert w[..|word|] == word && w[|word|..] == trail;
    assert trail + [] == trail;
    TrimStartOfRun(trail, []);
  }

  /** A word, a whitespace run and a text starting with a non-space split into the word and the text. */
  lemma SplitWordRunRest(word: string, run: string, rest: string)
    requires word != [] && NoSpace(word)
    requires run != [] && AllSpace(run)
    requires rest != [] && !IsSpace(rest[0])
    ensures SplitWhitespaceOnce(word + run + rest) == [word, rest]
  {
    var s := word + run + rest;
    assert TrimStart(s) == s;
    TokenLengthOfWord(word, run + rest);
    assert s == word + (run + rest);
    assert s[|word|..] == run + rest;
    TrimStartOfRun(run, rest);
  }

  lemma {:induction false} TokenLengthOfWord(word: string, tail: string)
    requires NoSpace(word)
    requires tail == [] || IsSpace(tail[0])
    ensures TokenLength(word + tail) == |word|
  {
    if word != [] {
      assert (word + tail)[1..] == word[1..] + tail;
      TokenLengthOfWord(word[1..], tail);
    }
  }

  lemma {:induction false} TrimStartOfRun(run: string, rest: string)
    requires AllSpace(run)
    requires rest == [] || !IsSpace(rest[0])
    ensures TrimStart(run + rest) == rest
  {
    if run != [] {
      assert (run + rest)[1..] == run[1..] + rest;
      TrimStartOfRun(run[1..], rest);
    }
  }

  function DigitChar(d: nat): char
    requires d < 10
  {
    "0123456789"[d]
  }

  /** Python's `str(n)` for a non-negative integer. */
  function NatToString(n: nat): (r: string)
    ensures r != [] && (forall i :: 0 <= i < |r| ==> '0' <= r[i] <= '9')
  {
    if n < 10 then [DigitChar(n)] else NatToString(n / 10) + [DigitChar(n % 10)]
  }

  /** Python's `str(n)`, or `f"{n}"`, for an integer. */
  function IntToString(n: int): string {
    if n < 0 then "-" + NatToString(-n) else NatToString(n)
  }
}
