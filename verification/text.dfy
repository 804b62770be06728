/** String helpers with Python's meaning: `str.isspace`, `str.strip()`,
    `sub in s` and `s.split(sep)[0]`. Trimming is parameterised by the
    whitespace class, because `int()` skips a smaller class than `strip()`. */
module Text {
  import opened Wrappers

  /** The characters for which Python's `str.isspace()` is true. */
  predicate IsSpace(c: char) {
    || ('\t' <= c <= '\r')            // tab, line feed, vertical tab, form feed, carriage return
    || ('\U{1c}' <= c <= ' ')         // file, group, record and unit separators; space
    || c == '\U{85}' || c == '\U{a0}' || c == '\U{1680}'
    || ('\U{2000}' <= c <= '\U{200a}')
    || c == '\U{2028}' || c == '\U{2029}' || c == '\U{202f}' || c == '\U{205f}' || c == '\U{3000}'
  }

  /** Every character of `s` is in the class `ws` (vacuously so for ""). */
  predicate AllIn(s: string, ws: char -> bool) {
    forall i :: 0 <= i < |s| ==> ws(s[i])
  }

  /** Every character of `s` is `str.isspace()` whitespace. */
  predicate AllSpace(s: string) {
    AllIn(s, IsSpace)
  }

  /** `s` with its leading characters of class `ws` removed. */
  function TrimLeft(s: string, ws: char -> bool): (r: string)
    ensures |r| <= |s| && r == s[|s| - |r|..]
    ensures AllIn(s[..|s| - |r|], ws)
    ensures r == [] || !ws(r[0])
  {
    if |s| > 0 && ws(s[0]) then
      var r := TrimLeft(s[1..], ws);
      assert s[..|s| - |r|] == [s[0]] + s[1..][..|s| - 1 - |r|];
      AllInAppend([s[0]], s[1..][..|s| - 1 - |r|], ws);
      r
    else s
  }

  /** `s` with its trailing characters of class `ws` removed. */
  function TrimRight(s: string, ws: char -> bool): (r: string)
    ensures |r| <= |s| && r == s[..|r|]
    ensures AllIn(s[|r|..], ws)
    ensures r == [] || !ws(r[|r| - 1])
  {
    if |s| > 0 && ws(s[|s| - 1]) then
      var r := TrimRight(s[..|s| - 1], ws);
      assert s[|r|..] == s[..|s| - 1][|r|..] + [s[|s| - 1]];
      AllInAppend(s[..|s| - 1][|r|..], [s[|s| - 1]], ws);
      r
    else s
  }

  /** `s` with the characters of class `ws` removed from both ends. */
  function StripBy(s: string, ws: char -> bool): string {
    TrimRight(TrimLeft(s, ws), ws)
  }

  /** Python's `s.strip()` with no argument. */
  function Strip(s: string): string {
    StripBy(s, IsSpace)
  }

  /** Python's `not s or not s.strip()`. */
  predicate IsBlank(s: string) {
    Strip(s) == []
  }

  /** A string is blank exactly when it consists of whitespace only. */
  lemma BlankIffAllSpace(s: string)
    ensures IsBlank(s) <==> AllSpace(s)
  {
    var l := TrimLeft(s, IsSpace);
    if IsBlank(s) {
      // the left trim already consumed everything: what is left is all
      // whitespace yet does not start with whitespace
      assert l[0..] == l;
      assert s[..|s|] == s;
    } else if AllSpace(s) {
      assert false;  // the left trim would have consumed the first character
    }
  }

  /** Stripping leaves a string that starts and ends outside the class alone. */
  lemma StripKeepsTrimmed(s: string, ws: char -> bool)
    requires |s| > 0 && !ws(s[0]) && !ws(s[|s| - 1])
    ensures StripBy(s, ws) == s
  {
  }

  /** Stripping keeps a first character that is outside the class. */
  lemma StripKeepsFirst(s: string, ws: char -> bool)
    requires |s| > 0 && !ws(s[0])
    ensures |StripBy(s, ws)| > 0 && StripBy(s, ws)[0] == s[0]
  {
    assert s[0..] == s;
    assert !AllIn(s, ws);
  }

  lemma {:induction false} TrimLeftSpacePrefix(pre: string, x: string, ws: char -> bool)
    requires AllIn(pre, ws)
    ensures TrimLeft(pre + x, ws) == TrimLeft(x, ws)
  {
    if pre != [] {
      var px := pre + x;
      assert px[0] == pre[0] && ws(pre[0]);
      assert px[1..] == pre[1..] + x;
      assert AllIn(pre[1..], ws) by {
        forall i | 0 <= i < |pre| - 1
          ensures ws(pre[1..][i])
        {
          assert pre[1..][i] == pre[i + 1];
        }
      }
      TrimLeftSpacePrefix(pre[1..], x, ws);
    } else {
      assert pre + x == x;
    }
  }

  lemma {:induction false} TrimLeftKeepsTail(x: string, y: string, ws: char -> bool)
    requires TrimLeft(x, ws) != []
    ensures TrimLeft(x + y, ws) == TrimLeft(x, ws) + y
  {
    if ws(x[0]) {
      assert (x + y)[1..] == x[1..] + y;
      TrimLeftKeepsTail(x[1..], y, ws);
    }
  }

  lemma {:induction false} TrimRightSpaceSuffix(x: string, post: string, ws: char -> bool)
    requires AllIn(post, ws)
    ensures TrimRight(x + post, ws) == TrimRight(x, ws)
  {
    if post != [] {
      var xp := x + post;
      assert xp[..|xp| - 1] == x + post[..|post| - 1];
      TrimRightSpaceSuffix(x, post[..|post| - 1], ws);
    } else {
      assert x + post == x;
    }
  }

  lemma AllInAppend(x: string, y: string, ws: char -> bool)
    requires AllIn(x, ws) && AllIn(y, ws)
    ensures AllIn(x + y, ws)
  {
    forall i | 0 <= i < |x + y|
      ensures ws((x + y)[i])
    {
      if i < |x| {
        assert (x + y)[i] == x[i];
      } else {
        assert (x + y)[i] == y[i - |x|];
      }
    }
  }

  lemma AllInTrimsToEmpty(x: string, ws: char -> bool)
    requires AllIn(x, ws)
    ensures TrimLeft(x, ws) == []
  {
    var r := TrimLeft(x, ws);
    if r != [] {
      assert false;  // the first character left would be in the class
    }
  }

  /** Characters of the stripped class added around a string do not change
      what stripping returns. */
  lemma StripAbsorbsSpace(s: string, pre: string, post: string, ws: char -> bool)
    requires AllIn(pre, ws) && AllIn(post, ws)
    ensures StripBy(pre + s + post, ws) == StripBy(s, ws)
  {
    var l := TrimLeft(s, ws);
    assert pre + s + post == pre + (s + post);
    TrimLeftSpacePrefix(pre, s + post, ws);
    assert TrimLeft(pre + s + post, ws) == TrimLeft(s + post, ws);
    if l != [] {
      TrimLeftKeepsTail(s, post, ws);
      TrimRightSpaceSuffix(l, post, ws);
    } else {
      assert s[..|s|] == s;
      AllInAppend(s, post, ws);
      AllInTrimsToEmpty(s + post, ws);
    }
  }

  /** `pat` occurs in `s` starting at index `i`. */
  predicate OccursAt(s: string, pat: string, i: int) {
    0 <= i && i + |pat| <= |s| && s[i..i + |pat|] == pat
  }

  /** Python's `pat in s`. */
  ghost predicate Contains(s: string, pat: string) {
    exists i :: OccursAt(s, pat, i)
  }

  /** `i` is the position of the first occurrence of `pat` in `s`. */
  predicate IsFirstOccurrence(s: string, pat: string, i: int) {
    OccursAt(s, pat, i) && forall j :: 0 <= j < i ==> !OccursAt(s, pat, j)
  }

  /** The first position at or after `from` where `pat` occurs in `s`. */
  function FindFrom(s: string, pat: string, from: nat): (r: Option<nat>)
    decreases |s| - from
    ensures r.Some? ==> from <= r.value && OccursAt(s, pat, r.value)
    ensures r.Some? ==> forall j :: from <= j < r.value ==> !OccursAt(s, pat, j)
    ensures r.None? ==> forall j :: from <= j ==> !OccursAt(s, pat, j)
  {
    if from + |pat| > |s| then None
    else if s[from..from + |pat|] == pat then Some(from)
    else FindFrom(s, pat, from + 1)
  }

  /** The first position where `pat` occurs in `s`, if any. */
  function Find(s: string, pat: string): (r: Option<nat>)
    ensures r.Some? <==> Contains(s, pat)
    ensures r.Some? ==> IsFirstOccurrence(s, pat, r.value)
    ensures forall i :: IsFirstOccurrence(s, pat, i) ==> r == Some(i)
  {
    FindFrom(s, pat, 0)
  }

  /** Python's `s.split(sep)[0]`: the text before the first occurrence of
      `sep`, or all of `s` when `sep` does not occur. An empty `sep` makes
      Python raise ValueError, so it is excluded. */
  function BeforeFirst(s: string, sep: string): (r: string)
    requires |sep| > 0
    ensures Contains(s, sep) ==> forall i :: IsFirstOccurrence(s, sep, i) ==> r == s[..i]
    ensures !Contains(s, sep) ==> r == s
  {
    match Find(s, sep)
    case Some(i) => s[..i]
    case None => s
  }
}
