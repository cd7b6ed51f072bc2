/**
 * `extract_json` of the LLM batch drivers (S1 and S2 carry the same text):
 * cut a Markdown code fence out of a model response. When the response holds
 * the tag "```json", only what follows its first occurrence is kept; when what
 * is left holds a "```", only what precedes its first occurrence is kept; the
 * result is that text with surrounding whitespace stripped.
 */
module JsonFence {
  import opened Common

  const Fence: string := "```"
  const JsonTag: string := "```json"

  /** `pat` occurs in `s` starting at index `k`. */
  predicate OccursAt(s: string, pat: string, k: int)
  {
    0 <= k && k + |pat| <= |s| && s[k..k + |pat|] == pat
  }

  /** `r` is a contiguous piece of `s`. */
  ghost predicate IsSubstring(r: string, s: string)
  {
    exists i :: OccursAt(s, r, i)
  }

  /** The first occurrence of `pat` in `s` at or after `from`. */
  function FindFrom(s: string, pat: string, from: nat): (r: Option<nat>)
    decreases |s| - from
    ensures r.Some? ==> from <= r.value && OccursAt(s, pat, r.value)
    ensures r.Some? ==> forall k :: from <= k < r.value ==> !OccursAt(s, pat, k)
    ensures r.None? ==> forall k :: from <= k ==> !OccursAt(s, pat, k)
  {
    if from + |pat| > |s| then None
    else if OccursAt(s, pat, from) then Some(from)
    else FindFrom(s, pat, from + 1)
  }

  /** The first occurrence of `pat` in `s` (Python's `s.find(pat)`). */
  function Find(s: string, pat: string): (r: Option<nat>)
    ensures r.Some? ==> OccursAt(s, pat, r.value) && forall k :: k < r.value ==> !OccursAt(s, pat, k)
    ensures r.None? ==> forall k :: !OccursAt(s, pat, k)
  {
    FindFrom(s, pat, 0)
  }

  /** Python's `pat in s`. */
  predicate Contains(s: string, pat: string)
  {
    Find(s, pat).Some?
  }

  /** Python's `s.split(sep)[0]`: everything before the first `sep`, or all of `s`. */
  function PieceBefore(s: string, sep: string): (r: string)
    ensures Contains(s, sep) ==> r == s[..Find(s, sep).value]
    ensures !Contains(s, sep) ==> r == s
    ensures |sep| > 0 ==> !Contains(r, sep)
  {
    match Find(s, sep)
    case None => s
    case Some(p) =>
      NothingBeforeFirst(s, sep, p);
      s[..p]
  }

  /** Before the first occurrence of a non-empty `sep` there is no `sep`. */
  lemma {:induction false} NothingBeforeFirst(s: string, sep: string, p: nat)
    requires p <= |s|
    requires forall k :: k < p ==> !OccursAt(s, sep, k)
    ensures |sep| > 0 ==> !Contains(s[..p], sep)
  {
    var r := s[..p];
    if |sep| > 0 && Contains(r, sep) {
      var k := Find(r, sep).value;
      assert r[k..k + |sep|] == s[k..k + |sep|];
      assert OccursAt(s, sep, k);
    }
  }

  /** A slice of a slice is a slice. */
  lemma SliceOfSlice(s: string, i: nat, j: nat, k: nat, l: nat)
    requires i <= j <= |s| && k <= l <= j - i
    ensures s[i..j][k..l] == s[i + k..i + l]
  {
    forall m | 0 <= m < l - k
      ensures s[i..j][k..l][m] == s[i + k..i + l][m]
    {
    }
  }

  /**
   * Python's `s.split(sep)[1]` when `sep` occurs: the text after the first `sep`
   * up to the next `sep`, or to the end of `s`.
   */
  function PieceAfter(s: string, sep: string): (r: string)
    requires Contains(s, sep)
    ensures var p := Find(s, sep).value;
            var rest := s[p + |sep|..];
            (Contains(rest, sep) ==> r == rest[..Find(rest, sep).value])
            && (!Contains(rest, sep) ==> r == rest)
    ensures |sep| > 0 ==> !Contains(r, sep)
  {
    var p := Find(s, sep).value;
    PieceBefore(s[p + |sep|..], sep)
  }

  /** The whitespace characters of Python's `str.isspace`. */
  const Whitespace: set<char> :=
    {'\t', '\n', '\U{B}', '\U{C}', '\r', '\U{1C}', '\U{1D}', '\U{1E}', '\U{1F}', ' ',
     '\U{85}', '\U{A0}', '\U{1680}', '\U{2000}', '\U{2001}', '\U{2002}', '\U{2003}', '\U{2004}', '\U{2005}',
     '\U{2006}', '\U{2007}', '\U{2008}', '\U{2009}', '\U{200A}', '\U{2028}', '\U{2029}', '\U{202F}', '\U{205F}',
     '\U{3000}'}

  predicate IsSpace(c: char)
  {
    c in Whitespace
  }

  /** The first index at or after `k` that does not hold whitespace (or `|s|`). */
  function SkipSpace(s: string, k: nat): (e: nat)
    requires k <= |s|
    ensures k <= e <= |s|
    ensures e == |s| || !IsSpace(s[e])
    decreases |s| - k
  {
    if k < |s| && IsSpace(s[k]) then SkipSpace(s, k + 1) else k
  }

  /** The end of `s[lo..j]` once its trailing whitespace is dropped. */
  function BackSpace(s: string, lo: nat, j: nat): (b: nat)
    requires lo <= j <= |s|
    ensures lo <= b <= j
    ensures b == lo || !IsSpace(s[b - 1])
    decreases j
  {
    if lo < j && IsSpace(s[j - 1]) then BackSpace(s, lo, j - 1) else j
  }

  /** Where `s.strip()` starts. */
  function StripStart(s: string): nat
  {
    SkipSpace(s, 0)
  }

  /** Where `s.strip()` ends. */
  function StripEnd(s: string): nat
  {
    BackSpace(s, StripStart(s), |s|)
  }

  /** Python's `s.strip()`: a piece of `s` with no whitespace at either end. */
  function Strip(s: string): (r: string)
    ensures StripStart(s) <= StripEnd(s) <= |s| && r == s[StripStart(s)..StripEnd(s)]
    ensures r == [] || (!IsSpace(r[0]) && !IsSpace(r[|r| - 1]))
  {
    s[StripStart(s)..StripEnd(s)]
  }

  /** `SkipSpace` passes over whitespace only. */
  lemma {:induction false} SkipSpaceOnlySpace(s: string, k: nat)
    requires k <= |s|
    ensures forall m :: k <= m < SkipSpace(s, k) ==> IsSpace(s[m])
    decreases |s| - k
  {
    if k < |s| && IsSpace(s[k]) {
      SkipSpaceOnlySpace(s, k + 1);
    }
  }

  /** `BackSpace` passes over whitespace only. */
  lemma {:induction false} BackSpaceOnlySpace(s: string, lo: nat, j: nat)
    requires lo <= j <= |s|
    ensures forall m :: BackSpace(s, lo, j) <= m < j ==> IsSpace(s[m])
    decreases j
  {
    if lo < j && IsSpace(s[j - 1]) {
      BackSpaceOnlySpace(s, lo, j - 1);
    }
  }

  /** `strip` removes whitespace only: everything outside its result is whitespace. */
  lemma StripDropsOnlySpace(s: string)
    ensures forall m :: 0 <= m < StripStart(s) ==> IsSpace(s[m])
    ensures forall m :: StripEnd(s) <= m < |s| ==> IsSpace(s[m])
  {
    SkipSpaceOnlySpace(s, 0);
    BackSpaceOnlySpace(s, StripStart(s), |s|);
  }

  /** The first step of `extract_json`: keep the piece after the first "```json", if any. */
  function CutAtTag(text: string): (r: string)
    ensures !Contains(r, JsonTag)
    ensures !Contains(text, JsonTag) ==> r == text
  {
    if Contains(text, JsonTag) then PieceAfter(text, JsonTag) else text
  }

  /** The second step of `extract_json`: keep the piece before the first "```", if any. */
  function CutAtFence(t: string): (r: string)
    ensures !Contains(r, Fence)
  {
    if Contains(t, Fence) then PieceBefore(t, Fence) else t
  }

  /**
   * `extract_json`: the fenced JSON payload of a model response. It never
   * contains a fence and has no surrounding whitespace.
   */
  function ExtractJson(text: string): (r: string)
    ensures !Contains(r, Fence)
    ensures r == [] || (!IsSpace(r[0]) && !IsSpace(r[|r| - 1]))
  {
    var t2 := CutAtFence(CutAtTag(text));
    PieceKeepsAbsence(t2, StripStart(t2), StripEnd(t2), Fence);
    Strip(t2)
  }

  // ---------------------------------------------------------------------------
  // Properties of extract_json

  /** A piece of a string that does not contain `pat` does not contain it either. */
  lemma {:induction false} PieceKeepsAbsence(s: string, i: nat, j: nat, pat: string)
    requires i <= j <= |s|
    requires !Contains(s, pat)
    ensures !Contains(s[i..j], pat)
  {
    var r := s[i..j];
    if Contains(r, pat) {
      var k := Find(r, pat).value;
      SliceOfSlice(s, i, j, k, k + |pat|);
      assert OccursAt(s, pat, i + k);
    }
  }

  /** Wherever "```json" occurs, "```" occurs too. */
  lemma {:induction false} TagContainsFence(s: string)
    requires Contains(s, JsonTag)
    ensures Contains(s, Fence)
  {
    var k := Find(s, JsonTag).value;
    assert s[k..k + 3] == s[k..k + 7][..3];
    assert OccursAt(s, Fence, k);
  }

  /** Where the two cuts of `extract_json` leave `text`, as a slice of it. */
  lemma {:induction false} CutsArePiece(text: string) returns (i: nat, j: nat)
    ensures i <= j <= |text|
    ensures CutAtFence(CutAtTag(text)) == text[i..j]
  {
    var a, b := TagCutIsPiece(text);
    var t1 := text[a..b];
    if Contains(t1, Fence) {
      var q := Find(t1, Fence).value;
      SliceOfSlice(text, a, b, 0, q);
      i, j := a, a + q;
    } else {
      i, j := a, b;
    }
  }

  /** Where the first cut of `extract_json` leaves `text`, as a slice of it. */
  lemma {:induction false} TagCutIsPiece(text: string) returns (a: nat, b: nat)
    ensures a <= b <= |text|
    ensures CutAtTag(text) == text[a..b]
  {
    a, b := 0, |text|;
    if Contains(text, JsonTag) {
      var p := Find(text, JsonTag).value;
      var rest := text[p + 7..];
      a := p + 7;
      if Contains(rest, JsonTag) {
        var q := Find(rest, JsonTag).value;
        SliceOfSlice(text, a, |text|, 0, q);
        b := a + q;
      }
    }
  }


  /** Stripping a piece of `s` leaves a piece of `s`. */
  lemma StripOfPieceIsPiece(s: string, a: nat, b: nat)
    requires a <= b <= |s|
    ensures OccursAt(s, Strip(s[a..b]), a + StripStart(s[a..b]))
  {
    SliceOfSlice(s, a, b, StripStart(s[a..b]), StripEnd(s[a..b]));
  }

  /** The result is a piece of the input. */
  lemma {:induction false} ExtractJsonIsSubstring(text: string)
    ensures IsSubstring(ExtractJson(text), text)
  {
    var a, b := CutsArePiece(text);
    StripOfPieceIsPiece(text, a, b);
  }

  /** Text without any "```" is only stripped. */
  lemma {:induction false} NoFenceOnlyStrips(text: string)
    requires !Contains(text, Fence)
    ensures ExtractJson(text) == Strip(text)
  {
    if Contains(text, JsonTag) {
      TagContainsFence(text);
    }
  }

  /** A string with no surrounding whitespace is its own strip. */
  lemma {:induction false} StripFixesTrimmed(s: string)
    requires s == [] || (!IsSpace(s[0]) && !IsSpace(s[|s| - 1]))
    ensures Strip(s) == s
  {
  }

  /** Applying `extract_json` twice is the same as applying it once. */
  lemma {:induction false} ExtractJsonIdempotent(text: string)
    ensures ExtractJson(ExtractJson(text)) == ExtractJson(text)
  {
    var r := ExtractJson(text);
    NoFenceOnlyStrips(r);
    StripFixesTrimmed(r);
  }

  /**
   * A fence without the `json` tag at the very start of the response yields the
   * empty string: the split at "```" keeps only what precedes the opening fence.
   */
  lemma {:induction false} UntaggedLeadingFenceYieldsEmpty(rest: string)
    requires !Contains(Fence + rest, JsonTag)
    ensures ExtractJson(Fence + rest) == ""
  {
    var text := Fence + rest;
    assert OccursAt(text, Fence, 0);
  }

  /** Scanning forward does not look past the first non-whitespace character. */
  lemma {:induction false} SkipSpaceAppend(x: string, y: string, k: nat)
    requires k <= |x| && SkipSpace(x, k) < |x|
    ensures SkipSpace(x + y, k) == SkipSpace(x, k)
    decreases |x| - k
  {
    assert (x + y)[k] == x[k];
    if IsSpace(x[k]) {
      SkipSpaceAppend(x, y, k + 1);
    }
  }

  /** Scanning backward over `[lo, j)` only reads that range. */
  lemma {:induction false} BackSpacePrefix(x: string, y: string, lo: nat, j: nat)
    requires lo <= j <= |x|
    ensures BackSpace(x + y, lo, j) == BackSpace(x, lo, j)
    decreases j
  {
    if lo < j {
      assert (x + y)[j - 1] == x[j - 1];
      BackSpacePrefix(x, y, lo, j - 1);
    }
  }

  /** Stripping ignores a whitespace character appended at the end. */
  lemma {:induction false} StripIgnoresTrailingSpace(x: string, c: char)
    requires IsSpace(c)
    ensures Strip(x + [c]) == Strip(x)
  {
    var y := x + [c];
    assert y[|x|] == c;
    if StripStart(x) < |x| {
      SkipSpaceAppend(x, [c], 0);
      var i := StripStart(x);
      assert BackSpace(y, i, |y|) == BackSpace(y, i, |x|);
      BackSpacePrefix(x, [c], i, |x|);
      assert y[i..StripEnd(y)] == x[i..StripEnd(x)];
    } else {
      SkipSpaceOnlySpace(x, 0);
      assert SkipSpace(y, |x|) == |y|;
      SkipSpaceFrom(y, 0, |x|);
    }
  }

  /** A forward scan that passes over `[k, m)` ends where the scan from `m` ends. */
  lemma {:induction false} SkipSpaceFrom(s: string, k: nat, m: nat)
    requires k <= m <= |s|
    requires forall l :: k <= l < m ==> IsSpace(s[l])
    ensures SkipSpace(s, k) == SkipSpace(s, m)
    decreases m - k
  {
    if k < m {
      SkipSpaceFrom(s, k + 1, m);
    }
  }

  /** Scanning `[c] + x` is scanning `x`, shifted by one. */
  lemma {:induction false} ScanShift(c: char, x: string, k: nat)
    requires k <= |x|
    ensures SkipSpace([c] + x, k + 1) == SkipSpace(x, k) + 1
    ensures BackSpace([c] + x, k + 1, |x| + 1) == BackSpace(x, k, |x|) + 1
    decreases |x| - k
  {
    var y := [c] + x;
    if k < |x| {
      assert y[k + 1] == x[k];
      ScanShift(c, x, k + 1);
    }
    BackShift(c, x, k, |x|);
  }

  /** The backward half of `ScanShift`. */
  lemma {:induction false} BackShift(c: char, x: string, lo: nat, j: nat)
    requires lo <= j <= |x|
    ensures BackSpace([c] + x, lo + 1, j + 1) == BackSpace(x, lo, j) + 1
    decreases j
  {
    if lo < j {
      assert ([c] + x)[j] == x[j - 1];
      BackShift(c, x, lo, j - 1);
    }
  }

  /** Stripping ignores a whitespace character put in front. */
  lemma {:induction false} StripIgnoresLeadingSpace(c: char, x: string)
    requires IsSpace(c)
    ensures Strip([c] + x) == Strip(x)
  {
    var y := [c] + x;
    var i, e := StripStart(x), StripEnd(x);
    StripBoundsShift(c, x);
    assert y[i + 1..e + 1] == x[i..e] by {
      assert y[1..] == x;
      SliceOfSlice(y, 1, |y|, i, e);
    }
  }

  /** A whitespace character put in front moves both ends of the stripped piece by one. */
  lemma {:induction false} StripBoundsShift(c: char, x: string)
    requires IsSpace(c)
    ensures StripStart([c] + x) == StripStart(x) + 1
    ensures StripEnd([c] + x) == StripEnd(x) + 1
  {
    var y := [c] + x;
    assert StripStart(y) == StripStart(x) + 1 by {
      assert y[0] == c;
      ScanShift(c, x, 0);
    }
    ScanShift(c, x, StripStart(x));
  }

  /** Before its closing fence, "\nX\n```" holds no fence when X holds none. */
  lemma NoFenceBeforeClosing(x: string, k: nat)
    requires !Contains(x, Fence) && k < |x| + 2
    ensures !OccursAt("\n" + x + "\n" + Fence, Fence, k)
  {
    var rest := "\n" + x + "\n" + Fence;
    if k + 3 <= |rest| {
      if 1 <= k && k + 3 <= 1 + |x| {
        assert rest[k..k + 3] == x[k - 1..k + 2];
        assert !OccursAt(x, Fence, k - 1);
      } else if k == 0 {
        assert rest[k..k + 3][0] == '\n';
      } else {
        assert rest[1 + |x|] == '\n';
        assert rest[k..k + 3][1 + |x| - k] == '\n';
      }
    }
  }

  /** In "\nX\n```" with X fence-free, the closing fence is the first one and there is no tag. */
  lemma {:induction false} OnlyClosingFence(x: string)
    requires !Contains(x, Fence)
    ensures var rest := "\n" + x + "\n" + Fence;
            Find(rest, Fence) == Some(|x| + 2) && !Contains(rest, JsonTag)
  {
    var rest := "\n" + x + "\n" + Fence;
    var n := |x| + 2;
    forall k | 0 <= k < n
      ensures !OccursAt(rest, Fence, k)
    {
      NoFenceBeforeClosing(x, k);
    }
    assert rest[n..n + 3] == Fence;
    assert OccursAt(rest, Fence, n);
    if Contains(rest, JsonTag) {
      TagContainsFence(rest);
      var k := Find(rest, JsonTag).value;
      assert rest[k..k + 3] == rest[k..k + 7][..3];
      assert OccursAt(rest, Fence, k);
    }
  }

  /** "```json\nX\n```" yields `strip(X)` when X holds no fence. */
  lemma {:induction false} TaggedFenceYieldsPayload(x: string)
    requires !Contains(x, Fence)
    ensures ExtractJson(JsonTag + "\n" + x + "\n" + Fence) == Strip(x)
  {
    var text := JsonTag + "\n" + x + "\n" + Fence;
    var rest := "\n" + x + "\n" + Fence;
    assert text[..7] == JsonTag;
    assert OccursAt(text, JsonTag, 0);
    assert text[7..] == rest;
    OnlyClosingFence(x);
    assert CutAtTag(text) == rest;
    assert rest[..|x| + 2] == "\n" + x + "\n";
    assert CutAtFence(rest) == "\n" + x + "\n";
    assert ("\n" + x + "\n") == ("\n" + x) + ['\n'];
    StripIgnoresTrailingSpace("\n" + x, '\n');
    StripIgnoresLeadingSpace('\n', x);
  }
}
