/**
 The few Python string operations the model relies on: `str.strip()` with no
 argument, `str.join`, and substring containment (`sub in s`).
 */
module Text {

  /**
   Inclusive code-point ranges of the characters Python's `str.isspace`
   accepts; `str.strip()` with no argument removes exactly these.
   */
  const WhitespaceRanges: seq<(int, int)> := [
    (0x09, 0x0d), (0x1c, 0x20), (0x85, 0x85), (0xa0, 0xa0), (0x1680, 0x1680),
    (0x2000, 0x200a), (0x2028, 0x2029), (0x202f, 0x202f), (0x205f, 0x205f), (0x3000, 0x3000)]

  predicate InRanges(n: int, ranges: seq<(int, int)>) {
    |ranges| > 0 && (ranges[0].0 <= n <= ranges[0].1 || InRanges(n, ranges[1..]))
  }

  predicate IsSpace(c: char) {
    InRanges(c as int, WhitespaceRanges)
  }

  predicate AllSpace(s: string) {
    forall i :: 0 <= i < |s| ==> IsSpace(s[i])
  }

  /** Neither end of `s` is whitespace. */
  predicate Tight(s: string) {
    |s| == 0 || (!IsSpace(s[0]) && !IsSpace(s[|s| - 1]))
  }

  /** `r` sits in `s` at offset `i` with only whitespace around it. */
  predicate PaddedAt(s: string, r: string, i: int) {
    && 0 <= i
    && i + |r| <= |s|
    && s[i..i + |r|] == r
    && (forall k :: 0 <= k < i ==> IsSpace(s[k]))
    && (forall k :: i + |r| <= k < |s| ==> IsSpace(s[k]))
  }

  /** The first position at or after `i` that does not hold whitespace, or `|s|`. */
  function SkipSpace(s: string, i: nat): (k: nat)
    requires i <= |s|
    ensures i <= k <= |s|
    ensures forall j :: i <= j < k ==> IsSpace(s[j])
    ensures k < |s| ==> !IsSpace(s[k])
    decreases |s| - i
  {
    if i == |s| || !IsSpace(s[i]) then i else SkipSpace(s, i + 1)
  }

  /** Walking back from `j` towards `lo`: the position just after the last non-whitespace, or `lo`. */
  function SkipSpaceBack(s: string, lo: nat, j: nat): (k: nat)
    requires lo <= j <= |s|
    ensures lo <= k <= j
    ensures forall m :: k <= m < j ==> IsSpace(s[m])
    ensures k > lo ==> !IsSpace(s[k - 1])
    decreases j
  {
    if j == lo || !IsSpace(s[j - 1]) then j else SkipSpaceBack(s, lo, j - 1)
  }

  /** Python `str.strip()`: `s` without its leading and trailing whitespace. */
  function Strip(s: string): (r: string)
    ensures Tight(r)
    ensures PaddedAt(s, r, SkipSpace(s, 0))
  {
    var a := SkipSpace(s, 0);
    var b := SkipSpaceBack(s, a, |s|);
    assert b > a ==> s[a..b][0] == s[a] && s[a..b][b - a - 1] == s[b - 1];
    s[a..b]
  }

  /**
   There is only one whitespace-free core of a string: any two tight strings
   found in `s` with only whitespace around them are equal.
   */
  lemma PaddedTightUnique(s: string, r1: string, i1: int, r2: string, i2: int)
    requires PaddedAt(s, r1, i1) && Tight(r1)
    requires PaddedAt(s, r2, i2) && Tight(r2)
    ensures r1 == r2
  {
    assert forall k :: 0 <= k < |r1| ==> r1[k] == s[i1 + k];
    assert forall k :: 0 <= k < |r2| ==> r2[k] == s[i2 + k];
    if |r1| > 0 && |r2| > 0 {
      assert s[i1] == r1[0] && s[i2] == r2[0];
      assert s[i1 + |r1| - 1] == r1[|r1| - 1];
      assert s[i2 + |r2| - 1] == r2[|r2| - 1];
      assert i1 == i2 && |r1| == |r2|;
    }
  }

  /** A tight string found in `s` with only whitespace around it is `Strip(s)`. */
  lemma StripOfPadded(s: string, r: string, i: int)
    requires PaddedAt(s, r, i) && Tight(r)
    ensures Strip(s) == r
  {
    PaddedTightUnique(s, r, i, Strip(s), SkipSpace(s, 0));
  }

  /** Both directions: `r` is `Strip(s)` exactly when `r` is tight and only whitespace surrounds it in `s`. */
  lemma StripCharacterized(s: string, r: string)
    ensures r == Strip(s) <==> Tight(r) && exists i :: PaddedAt(s, r, i)
  {
    if Tight(r) && exists i :: PaddedAt(s, r, i) {
      var i :| PaddedAt(s, r, i);
      StripOfPadded(s, r, i);
    }
  }

  /** Stripping twice is the same as stripping once. */
  lemma StripIdempotent(s: string)
    ensures Strip(Strip(s)) == Strip(s)
  {
    var r := Strip(s);
    assert r[0..|r|] == r;
    StripOfPadded(r, r, 0);
  }

  /** Whitespace added on either side of a string does not change what `Strip` keeps. */
  lemma StripIgnoresPadding(pre: string, s: string, post: string)
    requires AllSpace(pre) && AllSpace(post)
    ensures Strip(pre + s + post) == Strip(s)
  {
    var r, i := Strip(s), SkipSpace(s, 0);
    PaddedInContext(pre, s, post, r, i);
    StripOfPadded(pre + s + post, r, |pre| + i);
  }

  /** A padded core stays padded when more whitespace is put around the string. */
  lemma PaddedInContext(pre: string, s: string, post: string, r: string, i: int)
    requires AllSpace(pre) && AllSpace(post)
    requires PaddedAt(s, r, i)
    ensures PaddedAt(pre + s + post, r, |pre| + i)
  {
    var t := pre + s + post;
    var j := |pre| + i;
    assert t[j..j + |r|] == s[i..i + |r|];
    forall k | 0 <= k < j
      ensures IsSpace(t[k])
    {
      if k < |pre| {
        assert t[k] == pre[k];
      } else {
        assert t[k] == s[k - |pre|];
      }
    }
    forall k | j + |r| <= k < |t|
      ensures IsSpace(t[k])
    {
      if k < |pre| + |s| {
        assert t[k] == s[k - |pre|];
      } else {
        assert t[k] == post[k - |pre| - |s|];
      }
    }
  }

  /** `sub` occurs in `s` starting at offset `k`. */
  predicate OccursAt(sub: string, s: string, k: int) {
    0 <= k && k + |sub| <= |s| && s[k..k + |sub|] == sub
  }

  /** Python's `sub in s`. */
  predicate Contains(s: string, sub: string) {
    exists k :: 0 <= k <= |s| && OccursAt(sub, s, k)
  }

  /** A string occurs where it is framed. */
  lemma OccursInFrame(a: string, x: string, b: string)
    ensures OccursAt(x, a + x + b, |a|)
  {
    assert (a + x + b)[|a|..|a| + |x|] == x;
  }

  /** A string occurs at the start of anything it begins. */
  lemma OccursAtStart(x: string, t: string)
    ensures OccursAt(x, x + t, 0)
  {
    assert (x + t)[..|x|] == x;
  }

  /** An occurrence survives appending text after it. */
  lemma OccursInPrefix(x: string, s: string, k: int, t: string)
    requires OccursAt(x, s, k)
    ensures OccursAt(x, s + t, k)
  {
    assert (s + t)[k..k + |x|] == s[k..k + |x|];
  }

  /** An occurrence survives prepending text, shifted by its length. */
  lemma OccursInSuffix(x: string, s: string, k: int, p: string)
    requires OccursAt(x, s, k)
    ensures OccursAt(x, p + s, |p| + k)
  {
    assert (p + s)[|p| + k..|p| + k + |x|] == s[k..k + |x|];
  }

  /** Python's `sep.join(parts)`. */
  function Join(parts: seq<string>, sep: string): string {
    if |parts| == 0 then ""
    else if |parts| == 1 then parts[0]
    else parts[0] + sep + Join(parts[1..], sep)
  }

  /** Where the `i`-th part starts inside `Join(parts, sep)`. */
  function JoinOffset(parts: seq<string>, sep: string, i: nat): nat
    requires i <= |parts|
  {
    if i == 0 then 0 else |parts[0]| + |sep| + JoinOffset(parts[1..], sep, i - 1)
  }

  function TotalLength(parts: seq<string>): nat {
    if |parts| == 0 then 0 else |parts[0]| + TotalLength(parts[1..])
  }

  /** The joined string is the parts plus one separator between each adjacent pair. */
  lemma {:induction false} JoinLength(parts: seq<string>, sep: string)
    requires |parts| > 0
    ensures |Join(parts, sep)| == TotalLength(parts) + (|parts| - 1) * |sep|
  {
    if |parts| > 1 {
      JoinLength(parts[1..], sep);
    }
  }

  /** Every part appears, in order, at its offset in the joined string. */
  lemma {:induction false} JoinPartAt(parts: seq<string>, sep: string, i: nat)
    requires i < |parts|
    ensures OccursAt(parts[i], Join(parts, sep), JoinOffset(parts, sep, i))
  {
    if |parts| == 1 {
      OccursAtStart(parts[0], "");
      assert parts[0] + "" == parts[0];
    } else if i == 0 {
      OccursAtStart(parts[0], sep + Join(parts[1..], sep));
      assert parts[0] + (sep + Join(parts[1..], sep)) == Join(parts, sep);
    } else {
      var rest := parts[1..];
      JoinPartAt(rest, sep, i - 1);
      assert rest[i - 1] == parts[i];
      OccursInSuffix(parts[i], Join(rest, sep), JoinOffset(rest, sep, i - 1), parts[0] + sep);
    }
  }

  /** Every part but the last is followed by the separator in the joined string. */
  lemma {:induction false} JoinSeparatorAt(parts: seq<string>, sep: string, i: nat)
    requires i + 1 < |parts|
    ensures OccursAt(sep, Join(parts, sep), JoinOffset(parts, sep, i) + |parts[i]|)
  {
    var rest := parts[1..];
    if i == 0 {
      OccursInFrame(parts[0], sep, Join(rest, sep));
    } else {
      JoinSeparatorAt(rest, sep, i - 1);
      assert rest[i - 1] == parts[i];
      OccursInSuffix(sep, Join(rest, sep), JoinOffset(rest, sep, i - 1) + |parts[i]|, parts[0] + sep);
    }
  }

  /** Appending a part extends the joined string by the separator and that part. */
  lemma {:induction false} JoinSnoc(parts: seq<string>, x: string, sep: string)
    requires |parts| > 0
    ensures Join(parts + [x], sep) == Join(parts, sep) + sep + x
  {
    if |parts| == 1 {
      assert parts + [x] == [parts[0], x];
    } else {
      assert (parts + [x])[1..] == parts[1..] + [x];
      JoinSnoc(parts[1..], x, sep);
    }
  }
}
