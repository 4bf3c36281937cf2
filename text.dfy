/**
 * The few Python `str` operations the bot relies on: `lower()` (on ASCII
 * letters), the `in` substring test, `startswith`, `strip()` and `split()`
 * (on Python's whitespace), `find` and slicing with Python's clamping of
 * out-of-range indices.
 */
module Text {

  /** `c.lower()` for ASCII letters; every other character is left as it is. */
  function LowerChar(c: char): char {
    if 'A' <= c <= 'Z' then (c as int + 32) as char else c
  }

  function Lower(s: string): (r: string)
    ensures |r| == |s|
    ensures forall i :: 0 <= i < |s| ==> r[i] == LowerChar(s[i])
  {
    seq(|s|, i requires 0 <= i < |s| => LowerChar(s[i]))
  }

  /** No ASCII capital letter in `s`. */
  predicate NoUpper(s: string) {
    forall i :: 0 <= i < |s| ==> !('A' <= s[i] <= 'Z')
  }

  /**
   * A word made of characters of a lower-cased text has no capitals. (The
   * fact is kept out of `Lower`'s own contract so that it is not offered
   * to every proof that mentions `Lower`.)
   */
  lemma NoUpperPart(s: string, w: string)
    requires forall i :: 0 <= i < |w| ==> w[i] in Lower(s)
    ensures NoUpper(w)
  {
    var low := Lower(s);
    forall i | 0 <= i < |w|
      ensures !('A' <= w[i] <= 'Z')
    {
      var j :| 0 <= j < |low| && low[j] == w[i];
      assert low[j] == LowerChar(s[j]);
    }
  }

  /** Lower-casing distributes over concatenation. */
  lemma LowerAppend(a: string, b: string)
    ensures Lower(a + b) == Lower(a) + Lower(b)
  {
    assert forall i :: 0 <= i < |a + b| ==> Lower(a + b)[i] == (Lower(a) + Lower(b))[i];
  }

  /** Lower-casing neither makes nor removes whitespace. */
  lemma LowerCharSpace(c: char)
    ensures IsSpace(LowerChar(c)) <==> IsSpace(c)
  {
  }

  /** A character that lower-casing leaves alone survives it. */
  lemma LowerKeepsChar(s: string, c: char)
    requires c in s && LowerChar(c) == c
    ensures c in Lower(s)
  {
    var i :| 0 <= i < |s| && s[i] == c;
    assert Lower(s)[i] == c;
  }

  /** No character of `cs` occurs in `s`. */
  predicate Avoids(s: string, cs: string) {
    forall i :: 0 <= i < |s| ==> s[i] !in cs
  }

  /** Text without capitals is its own lower-case form. */
  lemma LowerNoUpper(s: string)
    requires NoUpper(s)
    ensures Lower(s) == s
  {
  }

  /** `pat` occurs at position `i` of `text`. */
  predicate OccursAt(text: string, pat: string, i: int) {
    0 <= i && i + |pat| <= |text| && text[i..i + |pat|] == pat
  }

  /** Python's `pat in text`. */
  predicate Contains(text: string, pat: string) {
    exists i :: 0 <= i <= |text| - |pat| && OccursAt(text, pat, i)
  }

  /** `any(p in text for p in pats)`. */
  predicate ContainsAny(text: string, pats: seq<string>)
    decreases |pats|
  {
    |pats| > 0 && (Contains(text, pats[0]) || ContainsAny(text, pats[1..]))
  }

  predicate StartsWith(s: string, prefix: string) {
    |prefix| <= |s| && s[..|prefix|] == prefix
  }

  /**
   * The characters `str.isspace()` accepts, which `str.strip()` and
   * `str.split()` remove: tab to carriage return, the four ASCII
   * separators U+001C to U+001F and space (the contiguous block up to
   * space), and the Unicode spaces from U+0085 on.
   */
  predicate IsSpace(c: char) {
    if c <= ' ' then '\t' <= c <= '\r' || '\U{001C}' <= c
    else if c < '\U{0085}' then false
    else
      || c == '\U{0085}' || c == '\U{00A0}' || c == '\U{1680}' || '\U{2000}' <= c <= '\U{200A}'
      || c == '\U{2028}' || c == '\U{2029}' || c == '\U{202F}' || c == '\U{205F}' || c == '\U{3000}'
  }

  predicate AllSpace(s: string) {
    forall i :: 0 <= i < |s| ==> IsSpace(s[i])
  }

  predicate NoSpace(s: string) {
    forall i :: 0 <= i < |s| ==> !IsSpace(s[i])
  }

  function StripLeft(s: string): (r: string)
    ensures |r| <= |s|
    ensures r == s[|s| - |r|..]
    ensures r == [] || !IsSpace(r[0])
    ensures forall i :: 0 <= i < |s| - |r| ==> IsSpace(s[i])
  {
    if s != [] && IsSpace(s[0]) then
      var r := StripLeft(s[1..]);
      assert s[1..][|s| - 1 - |r|..] == s[|s| - |r|..];
      r
    else s
  }

  function StripRight(s: string): (r: string)
    ensures |r| <= |s|
    ensures r == s[..|r|]
    ensures r == [] || !IsSpace(r[|r| - 1])
    ensures forall i :: |r| <= i < |s| ==> IsSpace(s[i])
  {
    if s != [] && IsSpace(s[|s| - 1]) then StripRight(s[..|s| - 1]) else s
  }

  /** `s.strip()`. */
  function Strip(s: string): (r: string)
    ensures |r| <= |s|
  {
    StripRight(StripLeft(s))
  }

  /**
   * `s.strip()` removes exactly the leading and trailing whitespace: `s` is
   * whitespace, then the result, then whitespace, and the result neither
   * starts nor ends with whitespace.
   */
  lemma StripTrims(s: string) returns (pre: string, post: string)
    ensures s == pre + Strip(s) + post
    ensures AllSpace(pre) && AllSpace(post)
    ensures Strip(s) != [] ==> !IsSpace(Strip(s)[0]) && !IsSpace(Strip(s)[|Strip(s)| - 1])
  {
    var l := StripLeft(s);
    pre, post := Trimmed(s, l, StripRight(l));
  }

  /** The sequence reasoning behind `StripTrims`, on the two stripped texts. */
  lemma Trimmed(s: string, l: string, r: string) returns (pre: string, post: string)
    requires |l| <= |s| && l == s[|s| - |l|..] && forall k :: 0 <= k < |s| - |l| ==> IsSpace(s[k])
    requires |r| <= |l| && r == l[..|r|] && forall k :: |r| <= k < |l| ==> IsSpace(l[k])
    requires (l == [] || !IsSpace(l[0])) && (r == [] || !IsSpace(r[|r| - 1]))
    ensures s == pre + r + post && AllSpace(pre) && AllSpace(post)
    ensures r != [] ==> !IsSpace(r[0]) && !IsSpace(r[|r| - 1])
  {
    pre := s[..|s| - |l|];
    post := l[|r|..];
    assert s == pre + l;
    assert l == r + post;
    if r != [] {
      assert r[0] == l[0];
    }
  }

  /** A text that starts and ends with a non-space, in whitespace, strips to itself. */
  lemma StripAround(pre: string, mid: string, post: string)
    requires AllSpace(pre) && AllSpace(post)
    requires mid != [] && !IsSpace(mid[0]) && !IsSpace(mid[|mid| - 1])
    ensures Strip(pre + mid + post) == mid
  {
    assert pre + mid + post == pre + (mid + post);
    assert (mid + post)[0] == mid[0];
    StripLeftSpaces(pre, mid + post);
    StripRightSpaces(mid, post);
  }

  /** Leading whitespace before a text that starts with a non-space is stripped whole. */
  lemma {:induction false} StripLeftSpaces(pre: string, t: string)
    requires AllSpace(pre) && (t == [] || !IsSpace(t[0]))
    ensures StripLeft(pre + t) == t
    decreases |pre|
  {
    if pre != [] {
      assert (pre + t)[1..] == pre[1..] + t;
      StripLeftSpaces(pre[1..], t);
    } else {
      assert pre + t == t;
    }
  }

  /** Trailing whitespace after a text that ends with a non-space is stripped whole. */
  lemma {:induction false} StripRightSpaces(t: string, post: string)
    requires AllSpace(post) && (t == [] || !IsSpace(t[|t| - 1]))
    ensures StripRight(t + post) == t
    decreases |post|
  {
    if post != [] {
      var n := |post| - 1;
      assert (t + post)[..|t + post| - 1] == t + post[..n];
      StripRightSpaces(t, post[..n]);
    } else {
      assert t + post == t;
    }
  }

  /** The longest prefix of `s` free of whitespace. */
  function Word(s: string): (w: string)
    ensures |w| <= |s| && w == s[..|w|]
    ensures forall i :: 0 <= i < |w| ==> !IsSpace(w[i])
    ensures |w| == |s| || IsSpace(s[|w|])
  {
    if s == [] || IsSpace(s[0]) then [] else [s[0]] + Word(s[1..])
  }

  /** `s.split()`: the maximal runs of non-whitespace, in order. */
  function Split(s: string): (parts: seq<string>)
    ensures forall k :: 0 <= k < |parts| ==> parts[k] != []
    ensures forall k, i :: 0 <= k < |parts| && 0 <= i < |parts[k]| ==> !IsSpace(parts[k][i]) && parts[k][i] in s
    decreases |s|
  {
    if s == [] then []
    else if IsSpace(s[0]) then Split(s[1..])
    else var w := Word(s); [w] + Split(s[|w|..])
  }

  /** A maximal run `t` of non-whitespace of `s` starts at position `i`. */
  predicate RunAt(s: string, i: int, t: string) {
    && 0 <= i && i + |t| <= |s| && t != [] && s[i..i + |t|] == t && NoSpace(t)
    && (i == 0 || IsSpace(s[i - 1]))
    && (i + |t| == |s| || IsSpace(s[i + |t|]))
  }

  /** A run of non-whitespace begins at position `i` of `s`. */
  predicate RunStart(s: string, i: int) {
    0 <= i < |s| && !IsSpace(s[i]) && (i == 0 || IsSpace(s[i - 1]))
  }

  /** A run of a suffix is a run of the whole text, unless it is glued to a non-space before the suffix. */
  lemma RunShift(s: string, d: nat, i: nat, t: string)
    requires d <= |s| && RunAt(s[d..], i, t)
    requires i > 0 || d == 0 || IsSpace(s[d - 1])
    ensures RunAt(s, d + i, t)
  {
    assert s[d..][i..i + |t|] == s[d + i..d + i + |t|];
    if i > 0 {
      assert s[d..][i - 1] == s[d + i - 1];
    }
    if d + i + |t| < |s| {
      assert s[d..][i + |t|] == s[d + i + |t|];
    }
  }

  /** A run start at or after `d` is a run start of the suffix from `d`. */
  lemma RunStartShift(s: string, d: nat, i: nat)
    requires RunStart(s, i) && d <= i
    ensures RunStart(s[d..], i - d)
  {
    if i > d {
      assert s[d..][i - d - 1] == s[i - 1];
    }
  }

  /**
   * `parts` are exactly the maximal runs of non-whitespace of `s`, in order:
   * the `k`-th part is the run at `starts[k]`, the runs come at increasing
   * positions with whitespace between them, and every run is among them.
   */
  ghost predicate Runs(s: string, parts: seq<string>, starts: seq<nat>) {
    RunsAt(s, parts, starts) && AllRunsListed(s, starts)
  }

  /** Each part is the run at its start, and the starts increase with whitespace between runs. */
  ghost predicate RunsAt(s: string, parts: seq<string>, starts: seq<nat>) {
    && |starts| == |parts|
    && (forall k :: 0 <= k < |starts| ==> RunAt(s, starts[k], parts[k]))
    && (forall k :: 0 <= k < |starts| - 1 ==> starts[k] + |parts[k]| < starts[k + 1])
  }

  /** Every run of `s` starts at one of `starts`. */
  ghost predicate AllRunsListed(s: string, starts: seq<nat>) {
    forall i :: RunStart(s, i) ==> i in starts
  }

  /** `s.split()` gives exactly the maximal runs of non-whitespace of `s`, in order. */
  lemma {:induction false} SplitRuns(s: string) returns (starts: seq<nat>)
    ensures |starts| == |Split(s)|
    ensures forall k :: 0 <= k < |starts| ==> RunAt(s, starts[k], Split(s)[k])
    ensures forall k :: 0 <= k < |starts| - 1 ==> starts[k] + |Split(s)[k]| < starts[k + 1]
    ensures forall i :: RunStart(s, i) ==> i in starts
    decreases |s|
  {
    if s == [] {
      starts := [];
    } else if IsSpace(s[0]) {
      var st := SplitRuns(s[1..]);
      starts := SpaceRuns(s, st);
    } else {
      var w := Word(s);
      var st := SplitRuns(s[|w|..]);
      starts := WordRuns(s, st);
    }
    assert Runs(s, Split(s), starts);
  }

  /** The runs after a leading space are those of the rest, one position later. */
  lemma SpaceRuns(s: string, st: seq<nat>) returns (starts: seq<nat>)
    requires s != [] && IsSpace(s[0]) && Runs(s[1..], Split(s[1..]), st)
    ensures Runs(s, Split(s), starts)
  {
    var rest := s[1..];
    assert Split(s) == Split(rest);
    starts := Shifted(st, 1);
    forall k | 0 <= k < |starts| ensures RunAt(s, starts[k], Split(s)[k]) {
      RunShift(s, 1, st[k], Split(rest)[k]);
    }
    forall i | RunStart(s, i) ensures i in starts {
      RunStartShift(s, 1, i);
      var k :| 0 <= k < |st| && st[k] == i - 1;
      assert starts[k] == i;
    }
  }

  /** The run starts `st` moved `d` positions on. */
  function Shifted(st: seq<nat>, d: nat): (r: seq<nat>)
    ensures |r| == |st| && forall k :: 0 <= k < |st| ==> r[k] == st[k] + d
  {
    seq(|st|, k requires 0 <= k < |st| => st[k] + d)
  }

  /** The runs of a text that starts with a word: that word, then the runs after it. */
  lemma WordRuns(s: string, st: seq<nat>) returns (starts: seq<nat>)
    requires s != [] && !IsSpace(s[0]) && Runs(s[|Word(s)|..], Split(s[|Word(s)|..]), st)
    ensures Runs(s, Split(s), starts)
  {
    var w := Word(s);
    assert Split(s) == [w] + Split(s[|w|..]);
    starts := RunsAfter(s, w, Split(s[|w|..]), st);
  }

  /** A leading word, followed by whitespace or nothing, adds one run in front. */
  lemma RunsAfter(s: string, w: string, tail: seq<string>, st: seq<nat>) returns (starts: seq<nat>)
    requires w != [] && |w| <= |s| && w == s[..|w|] && NoSpace(w) && (|w| == |s| || IsSpace(s[|w|]))
    requires Runs(s[|w|..], tail, st)
    ensures Runs(s, [w] + tail, starts)
  {
    starts := [0] + Shifted(st, |w|);
    RunsAfterAt(s, w, tail, st);
    RunsAfterListed(s, w, st);
  }

  lemma RunsAfterAt(s: string, w: string, tail: seq<string>, st: seq<nat>)
    requires w != [] && |w| <= |s| && w == s[..|w|] && NoSpace(w) && (|w| == |s| || IsSpace(s[|w|]))
    requires RunsAt(s[|w|..], tail, st)
    ensures RunsAt(s, [w] + tail, [0] + Shifted(st, |w|))
  {
    var starts := [0] + Shifted(st, |w|);
    var parts := [w] + tail;
    forall k | 0 <= k < |starts| ensures RunAt(s, starts[k], parts[k]) {
      if k == 0 {
        assert s[0..|w|] == s[..|w|];
      } else {
        RunAfterWord(s, w, st[k - 1], tail[k - 1]);
        assert starts[k] == |w| + st[k - 1] && parts[k] == tail[k - 1];
      }
    }
    forall k | 0 <= k < |starts| - 1 ensures starts[k] + |parts[k]| < starts[k + 1] {
      if k == 0 {
        RunAfterWord(s, w, st[0], tail[0]);
      } else {
        assert starts[k] == |w| + st[k - 1] && parts[k] == tail[k - 1] && starts[k + 1] == |w| + st[k];
      }
    }
  }

  /** A run of the text after a leading word is a run of the whole text, and not at the word's end. */
  lemma RunAfterWord(s: string, w: string, i: nat, t: string)
    requires |w| <= |s| && (|w| == |s| || IsSpace(s[|w|]))
    requires RunAt(s[|w|..], i, t)
    ensures i > 0 && RunAt(s, |w| + i, t)
  {
    assert s[|w|..][i] == t[0];
    RunShift(s, |w|, i, t);
  }

  lemma RunsAfterListed(s: string, w: string, st: seq<nat>)
    requires w != [] && |w| <= |s| && w == s[..|w|] && NoSpace(w) && (|w| == |s| || IsSpace(s[|w|]))
    requires AllRunsListed(s[|w|..], st)
    ensures AllRunsListed(s, [0] + Shifted(st, |w|))
  {
    var starts := [0] + Shifted(st, |w|);
    forall i | RunStart(s, i) ensures i in starts {
      if i > 0 {
        RunStartShift(s, |w|, i);
        var k :| 0 <= k < |st| && st[k] == i - |w|;
        assert starts[k + 1] == i;
      }
    }
  }

  /** Whitespace in front of a text does not change its split. */
  lemma {:induction false} SplitSpaces(pre: string, t: string)
    requires AllSpace(pre)
    ensures Split(pre + t) == Split(t)
    decreases |pre|
  {
    if pre != [] {
      assert (pre + t)[1..] == pre[1..] + t;
      SplitSpaces(pre[1..], t);
    } else {
      assert pre + t == t;
    }
  }

  /** `s[:n]`. */
  function Take(s: string, n: nat): (r: string)
    ensures |r| == if n < |s| then n else |s|
    ensures r == s[..|r|]
  {
    if n < |s| then s[..n] else s
  }

  /** `s.find(pat)`: the first position of `pat` in `s`, or -1. */
  function Find(s: string, pat: string): (i: int)
    ensures i == -1 || OccursAt(s, pat, i)
    ensures i == -1 <==> !Contains(s, pat)
    ensures i >= 0 ==> forall j :: 0 <= j < i ==> !OccursAt(s, pat, j)
    decreases |s|
  {
    if |pat| > |s| then -1
    else if s[..|pat|] == pat then 0
    else
      var k := Find(s[1..], pat);
      assert forall j :: 0 < j <= |s| - |pat| ==> (OccursAt(s, pat, j) <==> OccursAt(s[1..], pat, j - 1)) by {
        forall j | 0 < j <= |s| - |pat| ensures OccursAt(s, pat, j) <==> OccursAt(s[1..], pat, j - 1) {
          TailSlice(s, j, |pat|);
        }
      }
      if k == -1 then -1 else k + 1
  }

  /** A slice of `s[1..]` is the slice of `s` one position later. */
  lemma TailSlice(s: string, j: nat, n: nat)
    requires 0 < j && j + n <= |s|
    ensures s[j..j + n] == s[1..][j - 1..j - 1 + n]
  {
    var a, b := s[j..j + n], s[1..][j - 1..j - 1 + n];
    forall k | 0 <= k < n ensures a[k] == b[k] {
      assert a[k] == s[j + k] && b[k] == s[1..][j - 1 + k];
    }
  }

  /** Python's normalisation of a slice bound against a length. */
  function SliceBound(i: int, n: nat): (b: nat)
    ensures b <= n
  {
    if i < 0 then (if n + i < 0 then 0 else n + i) else if i > n then n else i
  }

  /** `s[i:j]` for any integers `i` and `j`. */
  function PySlice(s: string, i: int, j: int): (r: string)
    ensures |r| <= |s|
  {
    var a, b := SliceBound(i, |s|), SliceBound(j, |s|);
    if a < b then s[a..b] else []
  }

  /**
   * Python's slice normalisation: bounds within the text slice directly, a
   * bound beyond the end counts as the end, a negative bound counts from
   * the end and one below `-len(s)` as 0, and a start at or after the stop
   * gives the empty string.
   */
  lemma PySliceBounds(s: string, i: int, j: int)
    ensures 0 <= i <= j <= |s| ==> PySlice(s, i, j) == s[i..j]
    ensures j > |s| ==> PySlice(s, i, j) == PySlice(s, i, |s|)
    ensures i > |s| ==> PySlice(s, i, j) == []
    ensures -|s| <= i < 0 ==> PySlice(s, i, j) == PySlice(s, |s| + i, j)
    ensures i < -|s| ==> PySlice(s, i, j) == PySlice(s, 0, j)
    ensures -|s| <= j < 0 ==> PySlice(s, i, j) == PySlice(s, i, |s| + j)
    ensures j < -|s| ==> PySlice(s, i, j) == []
    ensures 0 <= j <= i ==> PySlice(s, i, j) == []
  {
  }

  // ---------------------------------------------------------------------
  // Lemmas about substrings

  /** Every character of an occurrence is a character of the text. */
  lemma OccurrenceChar(text: string, pat: string, c: char)
    requires Contains(text, pat) && c in pat
    ensures c in text
  {
    var i: int :| OccursAt(text, pat, i);
    assert OccursAt(text, pat, i);
    var j :| 0 <= j < |pat| && pat[j] == c;
    assert text[i..i + |pat|][j] == text[i + j];
  }

  /** A pattern with a character the text lacks does not occur in it. */
  lemma MissingChar(text: string, pat: string, c: char)
    requires c in pat && c !in text
    ensures !Contains(text, pat)
  {
    if Contains(text, pat) {
      OccurrenceChar(text, pat, c);
      assert false;
    }
  }

  /** Containment survives adding text on either side. */
  lemma ContainsExtend(pre: string, text: string, post: string, pat: string)
    requires Contains(text, pat)
    ensures Contains(pre + text + post, pat)
  {
    var i: int :| OccursAt(text, pat, i);
    assert OccursAt(text, pat, i);
    assert (pre + text + post)[|pre| + i..|pre| + i + |pat|] == text[i..i + |pat|];
    assert OccursAt(pre + text + post, pat, |pre| + i);
  }

  /** Containment is transitive. */
  lemma ContainsTrans(text: string, mid: string, pat: string)
    requires Contains(text, mid) && Contains(mid, pat)
    ensures Contains(text, pat)
  {
    var i: int :| OccursAt(text, mid, i);
    assert OccursAt(text, mid, i);
    var j: int :| OccursAt(mid, pat, j);
    assert OccursAt(mid, pat, j);
    assert text[i..i + |mid|] == mid;
    assert forall k :: 0 <= k < |pat| ==> text[i + j + k] == mid[j + k] == pat[k];
    assert text[i + j..i + j + |pat|] == pat;
    assert OccursAt(text, pat, i + j);
  }

  /**
   * An occurrence in `pre + text` of a pattern without spaces, where `pre`
   * ends with a space, lies wholly in `pre` or wholly in `text`.
   */
  lemma ContainsAfterSpace(pre: string, text: string, pat: string)
    requires |pre| > 0 && pre[|pre| - 1] == ' ' && ' ' !in pat
    ensures Contains(pre + text, pat) <==> Contains(pre, pat) || Contains(text, pat)
  {
    var s := pre + text;
    if Contains(s, pat) {
      var i: int :| OccursAt(s, pat, i);
      assert OccursAt(s, pat, i);
      if i + |pat| <= |pre| {
        assert pre[i..i + |pat|] == s[i..i + |pat|];
        assert OccursAt(pre, pat, i);
      } else if i >= |pre| {
        assert text[i - |pre|..i - |pre| + |pat|] == s[i..i + |pat|];
        assert OccursAt(text, pat, i - |pre|);
      } else {
        StraddleHasSpace(pre, text, pat, i);
        assert false;
      }
    }
    if Contains(pre, pat) {
      var i: int :| OccursAt(pre, pat, i);
      assert OccursAt(pre, pat, i);
      assert s[i..i + |pat|] == pre[i..i + |pat|];
      assert OccursAt(s, pat, i);
    }
    if Contains(text, pat) {
      var i: int :| OccursAt(text, pat, i);
      assert OccursAt(text, pat, i);
      assert s[|pre| + i..|pre| + i + |pat|] == text[i..i + |pat|];
      assert OccursAt(s, pat, |pre| + i);
    }
  }

  /** An occurrence that covers the last character of `pre` contains it. */
  lemma StraddleHasSpace(pre: string, text: string, pat: string, i: int)
    requires |pre| > 0 && pre[|pre| - 1] == ' '
    requires OccursAt(pre + text, pat, i) && i < |pre| < i + |pat|
    ensures ' ' in pat
  {
    var s := pre + text;
    assert s[i..i + |pat|][|pre| - 1 - i] == s[|pre| - 1];
  }

  /**
   * Patterns holding a character the text lacks never match, so `any` over
   * all the patterns is `any` over the others (`live`).
   */
  lemma ContainsAnyLive(text: string, pats: seq<string>, live: seq<string>, c: char)
    requires forall k :: 0 <= k < |pats| ==> c in pats[k] || pats[k] in live
    requires forall j :: 0 <= j < |live| ==> live[j] in pats
    ensures c !in text ==> (ContainsAny(text, pats) <==> ContainsAny(text, live))
  {
    ContainsAnyIff(text, pats);
    ContainsAnyIff(text, live);
    if c !in text {
      if ContainsAny(text, pats) {
        var k :| 0 <= k < |pats| && Contains(text, pats[k]);
        if c in pats[k] {
          MissingChar(text, pats[k], c);
        }
        var j :| 0 <= j < |live| && live[j] == pats[k];
        assert Contains(text, live[j]);
      }
      if ContainsAny(text, live) {
        var j :| 0 <= j < |live| && Contains(text, live[j]);
        var k :| 0 <= k < |pats| && pats[k] == live[j];
        assert Contains(text, pats[k]);
      }
    }
  }

  /** The recursive `any` agrees with "some pattern occurs". */
  lemma {:induction false} ContainsAnyIff(text: string, pats: seq<string>)
    ensures ContainsAny(text, pats) <==> exists k :: 0 <= k < |pats| && Contains(text, pats[k])
    decreases |pats|
  {
    if |pats| > 0 {
      ContainsAnyIff(text, pats[1..]);
      assert forall k :: 1 <= k < |pats| ==> pats[1..][k - 1] == pats[k];
      if Contains(text, pats[0]) {
        assert Contains(text, pats[0]);
      }
    }
  }

}
