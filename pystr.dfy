/** The Python string operations the detectors use, on `string` (a sequence of `char`). */
module PyStr {

  /** `c.isspace()`: the characters that `str.split()` and `str.strip()` treat as whitespace. */
  predicate IsSpace(c: char) {
    c == ' ' || '\t' <= c <= '\r' || '\U{1C}' <= c <= '\U{1F}' || c == '\U{85}' || c == '\U{A0}'
    || c == '\U{1680}' || '\U{2000}' <= c <= '\U{200A}' || c == '\U{2028}' || c == '\U{2029}'
    || c == '\U{202F}' || c == '\U{205F}' || c == '\U{3000}'
  }

  predicate AllSpace(s: string) {
    forall i :: 0 <= i < |s| ==> IsSpace(s[i])
  }

  /** A token that `str.split()` can produce: non-empty and free of whitespace. */
  predicate IsWord(w: string) {
    w != [] && forall i :: 0 <= i < |w| ==> !IsSpace(w[i])
  }

  /** The length of the run of non-whitespace characters that starts `s`. */
  function WordLength(s: string): (n: nat)
    ensures n <= |s|
    ensures forall i :: 0 <= i < n ==> !IsSpace(s[i])
    ensures n < |s| ==> IsSpace(s[n])
  {
    if s == [] || IsSpace(s[0]) then 0 else 1 + WordLength(s[1..])
  }

  /** `s.split()`: the maximal runs of non-whitespace characters, in order. */
  function Split(s: string): (r: seq<string>)
    ensures forall i :: 0 <= i < |r| ==> IsWord(r[i])
    decreases |s|
  {
    if s == [] then []
    else if IsSpace(s[0]) then Split(s[1..])
    else
      var n := WordLength(s);
      [s[..n]] + Split(s[n..])
  }

  /** `' '.join(ws)`. */
  function Join(ws: seq<string>): string {
    if ws == [] then ""
    else if |ws| == 1 then ws[0]
    else ws[0] + " " + Join(ws[1..])
  }

  lemma {:induction false} SplitAllSpace(t: string)
    requires AllSpace(t)
    ensures Split(t) == []
    decreases |t|
  {
    if t != [] {
      SplitAllSpace(t[1..]);
    }
  }

  lemma {:induction false} WordLengthOfWord(w: string, rest: string)
    requires IsWord(w)
    requires rest == [] || IsSpace(rest[0])
    ensures WordLength(w + rest) == |w|
    decreases |w|
  {
    if |w| > 1 {
      assert (w + rest)[1..] == w[1..] + rest;
      WordLengthOfWord(w[1..], rest);
    } else {
      assert (w + rest)[1..] == rest;
    }
  }

  /** A word followed by whitespace (or nothing) is split off as the first token. */
  lemma SplitAfterWord(w: string, rest: string)
    requires IsWord(w)
    requires rest == [] || IsSpace(rest[0])
    ensures Split(w + rest) == [w] + Split(rest)
  {
    var s := w + rest;
    WordLengthOfWord(w, rest);
    assert s[..|w|] == w;
    assert s[|w|..] == rest;
  }

  /** Splitting undoes joining with single spaces, whatever whitespace trails the text. */
  lemma {:induction false} SplitJoin(ws: seq<string>, tail: string)
    requires forall i :: 0 <= i < |ws| ==> IsWord(ws[i])
    requires AllSpace(tail)
    ensures Split(Join(ws) + tail) == ws
    decreases |ws|
  {
    if ws == [] {
      assert Join(ws) + tail == tail;
      SplitAllSpace(tail);
    } else if |ws| == 1 {
      SplitAfterWord(ws[0], tail);
      SplitAllSpace(tail);
    } else {
      SplitJoin(ws[1..], tail);
      SplitJoinStep(ws, tail);
    }
  }

  /** One more word in front: if the rest splits back, so does the whole. */
  lemma SplitJoinStep(ws: seq<string>, tail: string)
    requires |ws| >= 2 && IsWord(ws[0])
    requires Split(Join(ws[1..]) + tail) == ws[1..]
    ensures Split(Join(ws) + tail) == ws
  {
    var r := " " + (Join(ws[1..]) + tail);
    SplitAfterSpace(Join(ws[1..]) + tail);
    assert Join(ws) + tail == ws[0] + r;
    SplitAfterWord(ws[0], r);
    assert [ws[0]] + ws[1..] == ws;
  }

  lemma SplitAfterSpace(t: string)
    ensures Split(" " + t) == Split(t)
  {
    assert (" " + t)[1..] == t;
  }

  /** The number of whitespace characters that start `s`. */
  function LeadingSpace(s: string): (n: nat)
    ensures n <= |s|
    ensures AllSpace(s[..n])
    ensures n < |s| ==> !IsSpace(s[n])
  {
    if s == [] || !IsSpace(s[0]) then 0 else 1 + LeadingSpace(s[1..])
  }

  /** The number of whitespace characters that end `s`. */
  function TrailingSpace(s: string): (n: nat)
    ensures n <= |s|
    ensures AllSpace(s[|s| - n..])
    ensures n < |s| ==> !IsSpace(s[|s| - n - 1])
  {
    if s == [] || !IsSpace(s[|s| - 1]) then 0 else 1 + TrailingSpace(s[..|s| - 1])
  }

  /** Text without whitespace at either end. */
  predicate IsTrimmed(c: string) {
    c == [] || (!IsSpace(c[0]) && !IsSpace(c[|c| - 1]))
  }

  /** `s.strip()`: `s` without its leading and trailing whitespace. */
  function Strip(s: string): (r: string)
    ensures IsTrimmed(r)
  {
    var t := s[LeadingSpace(s)..];
    t[..|t| - TrailingSpace(t)]
  }

  lemma {:induction false} LeadingSpaceOfPadded(a: string, c: string)
    requires AllSpace(a)
    requires c != [] && !IsSpace(c[0])
    ensures LeadingSpace(a + c) == |a|
    decreases |a|
  {
    if a == [] {
      assert a + c == c;
    } else {
      assert (a + c)[0] == a[0] && IsSpace(a[0]);
      assert (a + c)[1..] == a[1..] + c;
      assert AllSpace(a[1..]) by {
        forall i | 0 <= i < |a[1..]|
          ensures IsSpace(a[1..][i])
        {
          assert a[1..][i] == a[i + 1];
        }
      }
      LeadingSpaceOfPadded(a[1..], c);
    }
  }

  lemma {:induction false} TrailingSpaceOfPadded(c: string, b: string)
    requires AllSpace(b)
    requires c != [] && !IsSpace(c[|c| - 1])
    ensures TrailingSpace(c + b) == |b|
    decreases |b|
  {
    if b != [] {
      assert (c + b)[..|c + b| - 1] == c + b[..|b| - 1];
      TrailingSpaceOfPadded(c, b[..|b| - 1]);
    }
  }

  lemma {:induction false} LeadingSpaceAll(a: string)
    requires AllSpace(a)
    ensures LeadingSpace(a) == |a|
    decreases |a|
  {
    if a != [] {
      LeadingSpaceAll(a[1..]);
    }
  }

  /** Stripping recovers trimmed text from any whitespace padding around it. */
  lemma StripPadded(a: string, c: string, b: string)
    requires AllSpace(a) && AllSpace(b) && IsTrimmed(c)
    ensures Strip(a + c + b) == c
  {
    var s := a + c + b;
    if c == [] {
      assert s == a + b;
      assert AllSpace(s);
      LeadingSpaceAll(s);
    } else {
      assert s == a + (c + b);
      LeadingSpaceOfPadded(a, c + b);
      var t := s[|a|..];
      assert t == c + b;
      TrailingSpaceOfPadded(c, b);
      assert t[..|t| - |b|] == c;
    }
  }

  /** `s.startswith(p)`. */
  predicate StartsWith(s: string, p: string) {
    |p| <= |s| && s[..|p|] == p
  }

  /** `s.endswith(p)`. */
  predicate EndsWith(s: string, p: string) {
    |p| <= |s| && s[|s| - |p|..] == p
  }

  /** `t in s`, for strings: `t` occurs in `s` as a contiguous substring. */
  predicate Contains(s: string, t: string)
    decreases |s|
  {
    StartsWith(s, t) || (s != [] && Contains(s[1..], t))
  }

  lemma {:induction false} ContainsAt(s: string, t: string, k: nat)
    requires k + |t| <= |s| && s[k..k + |t|] == t
    ensures Contains(s, t)
    decreases k
  {
    if k > 0 {
      assert s[1..][k - 1..k - 1 + |t|] == s[k..k + |t|];
      ContainsAt(s[1..], t, k - 1);
    }
  }

  lemma ContainsMiddle(a: string, t: string, b: string)
    ensures Contains(a + t + b, t)
  {
    assert (a + t + b)[|a|..|a| + |t|] == t;
    ContainsAt(a + t + b, t, |a|);
  }

  /** `t` occurs in `s` starting at index `k`. */
  predicate OccursAt(s: string, t: string, k: nat) {
    k + |t| <= |s| && s[k..k + |t|] == t
  }

  /** `t in s` holds exactly when `t` occurs somewhere in `s`. */
  lemma {:induction false} ContainsExactly(s: string, t: string)
    ensures Contains(s, t) <==> exists k :: OccursAt(s, t, k)
    decreases |s|
  {
    if Contains(s, t) {
      if StartsWith(s, t) {
        assert OccursAt(s, t, 0);
      } else {
        ContainsExactly(s[1..], t);
        assert s != [];
        var k: nat :| OccursAt(s[1..], t, k);
        assert s[k + 1..k + 1 + |t|] == s[1..][k..k + |t|];
        assert OccursAt(s, t, k + 1);
      }
    }
    if exists k :: OccursAt(s, t, k) {
      var k: nat :| OccursAt(s, t, k);
      ContainsAt(s, t, k);
    }
  }

  /** `s.replace(a, b)` for one-character strings `a` and `b`. */
  function Replace(s: string, a: char, b: char): (r: string)
    ensures |r| == |s|
    ensures forall i :: 0 <= i < |s| ==> r[i] == (if s[i] == a then b else s[i])
  {
    if s == [] then [] else [if s[0] == a then b else s[0]] + Replace(s[1..], a, b)
  }

  /** The index of the first `c` in `s`, or `|s|` when there is none. */
  function FirstIndex(s: string, c: char): (i: nat)
    ensures i <= |s|
    ensures forall j :: 0 <= j < i ==> s[j] != c
    ensures i < |s| ==> s[i] == c
  {
    if s == [] || s[0] == c then 0 else 1 + FirstIndex(s[1..], c)
  }

  /** `s.split(c)[0]`: the text before the first `c`. */
  function BeforeFirst(s: string, c: char): string {
    s[..FirstIndex(s, c)]
  }

  /** `s.split(c, 1)[-1]`: the text after the first `c`, or all of `s` when there is no `c`. */
  function AfterFirst(s: string, c: char): string {
    var i := FirstIndex(s, c);
    if i < |s| then s[i + 1..] else s
  }

  /** `s[1:-1]`: `s` without its first and its last character (empty when `|s| < 2`). */
  function Inner(s: string): string {
    if |s| >= 2 then s[1..|s| - 1] else ""
  }
}
