/** The few `strings` operations the configuration code uses:
    `strings.TrimSpace`, `strings.ToLower` and `strings.Contains`. */
module Text {

  /** Go's `unicode.IsSpace`: the ASCII spaces, U+0085, U+00A0 and the other
      characters with the Unicode White_Space property. */
  predicate IsSpace(c: char) {
    var n := c as int;
    (0x09 <= n <= 0x0D) || n == 0x20 || n == 0x85 || n == 0xA0 || n == 0x1680
    || (0x2000 <= n <= 0x200A) || n == 0x2028 || n == 0x2029 || n == 0x202F
    || n == 0x205F || n == 0x3000
  }

  predicate IsUpper(c: char) { 'A' <= c <= 'Z' }

  /** Lower-casing of one character (ASCII letters only). */
  function LowerChar(c: char): (r: char)
    ensures IsUpper(c) ==> r as int == c as int + 32
    ensures !IsUpper(c) ==> r == c
  {
    if IsUpper(c) then (c as int + 32) as char else c
  }

  /** `strings.ToLower`, restricted to ASCII letters. */
  function ToLower(s: string): (r: string)
    ensures |r| == |s|
    ensures forall i :: 0 <= i < |s| ==> r[i] == LowerChar(s[i])
  {
    seq(|s|, i requires 0 <= i < |s| => LowerChar(s[i]))
  }

  /** Index of the first non-space at or after `i`, or `|s|`. */
  function SkipSpaces(s: string, i: nat): (n: nat)
    requires i <= |s|
    ensures i <= n <= |s|
    ensures forall k :: i <= k < n ==> IsSpace(s[k])
    ensures n < |s| ==> !IsSpace(s[n])
    decreases |s| - i
  {
    if i == |s| || !IsSpace(s[i]) then i else SkipSpaces(s, i + 1)
  }

  /** Index just past the last non-space before `j` and not before `lo`,
      or `lo`. */
  function BackSpaces(s: string, lo: nat, j: nat): (n: nat)
    requires lo <= j <= |s|
    ensures lo <= n <= j
    ensures forall k :: n <= k < j ==> IsSpace(s[k])
    ensures n > lo ==> !IsSpace(s[n - 1])
    decreases j
  {
    if j == lo || !IsSpace(s[j - 1]) then j else BackSpaces(s, lo, j - 1)
  }

  /** The number of leading white-space characters of `s`. */
  function LeadingSpaces(s: string): (n: nat)
    ensures n <= |s|
  {
    SkipSpaces(s, 0)
  }

  /** `strings.TrimSpace`: the input without its leading and trailing white
      space; what is removed is white space and what remains starts and ends
      with a non-space. */
  function TrimSpace(s: string): (r: string)
    ensures var i := LeadingSpaces(s);
      && i + |r| <= |s| && r == s[i..i + |r|]
      && (forall k :: 0 <= k < i ==> IsSpace(s[k]))
      && (forall k :: i + |r| <= k < |s| ==> IsSpace(s[k]))
    ensures r != [] ==> !IsSpace(r[0]) && !IsSpace(r[|r| - 1])
    ensures r == [] ==> forall k :: 0 <= k < |s| ==> IsSpace(s[k])
  {
    var i := LeadingSpaces(s);
    s[i..BackSpaces(s, i, |s|)]
  }

  /** `strings.ToLower(strings.TrimSpace(s))`, the normalisation applied to
      modes and log levels. */
  function LowerTrimmed(s: string): (r: string)
    ensures r == ToLower(TrimSpace(s))
    ensures |r| <= |s|
    ensures forall k :: 0 <= k < |r| ==> !IsUpper(r[k])
    ensures r != [] ==> !IsSpace(r[0]) && !IsSpace(r[|r| - 1])
  {
    var t := TrimSpace(s);
    LowerKeepsSpaces(t);
    ToLower(t)
  }

  /** Lower-casing neither makes nor removes white space, at every index. */
  lemma LowerKeepsSpaces(s: string)
    ensures forall k :: 0 <= k < |s| ==> (IsSpace(ToLower(s)[k]) <==> IsSpace(s[k]))
  {
  }

  /** A string without upper-case letters is its own lower-case form. */
  lemma ToLowerOfLower(s: string)
    requires forall k :: 0 <= k < |s| ==> !IsUpper(s[k])
    ensures ToLower(s) == s
  {
  }

  /** A string that neither starts nor ends with white space is its own
      trimmed form. */
  lemma TrimSpaceOfTrimmed(s: string)
    requires s != [] ==> !IsSpace(s[0]) && !IsSpace(s[|s| - 1])
    ensures TrimSpace(s) == s
  {
    if s != [] {
      assert SkipSpaces(s, 0) == 0;
      assert BackSpaces(s, 0, |s|) == |s|;
    }
  }

  /** Normalising twice is normalising once. */
  lemma LowerTrimmedIdempotent(s: string)
    ensures LowerTrimmed(LowerTrimmed(s)) == LowerTrimmed(s)
  {
    var r := LowerTrimmed(s);
    TrimSpaceOfTrimmed(r);
    ToLowerOfLower(r);
  }

  /** Skipping forward from `i` stops at `n` when everything between is
      white space and `n` is the end or a non-space. */
  lemma {:induction false} SkipPadding(s: string, i: nat, n: nat)
    requires i <= n <= |s|
    requires forall k :: i <= k < n ==> IsSpace(s[k])
    requires n == |s| || !IsSpace(s[n])
    ensures SkipSpaces(s, i) == n
    decreases n - i
  {
    if i < n {
      SkipPadding(s, i + 1, n);
    }
  }

  /** Skipping backward from `j` stops at `n` when everything between is
      white space and `n` is the lower bound or follows a non-space. */
  lemma {:induction false} BackPadding(s: string, lo: nat, n: nat, j: nat)
    requires lo <= n <= j <= |s|
    requires forall k :: n <= k < j ==> IsSpace(s[k])
    requires n == lo || !IsSpace(s[n - 1])
    ensures BackSpaces(s, lo, j) == n
    decreases j
  {
    if n < j {
      BackPadding(s, lo, n, j - 1);
    }
  }

  /** A slice of the middle of `pre + v + post` is the slice of `v`. */
  lemma PaddedSlice(pre: string, v: string, post: string, i: nat, j: nat)
    requires i <= j <= |v|
    ensures (pre + v + post)[|pre| + i..|pre| + j] == v[i..j]
  {
    var s := pre + v + post;
    assert forall k :: 0 <= k < j - i ==> s[|pre| + i..|pre| + j][k] == v[i..j][k];
  }

  /** White space before a point of `v` stays white space once `pre` is put
      in front. */
  lemma PaddedLeading(pre: string, v: string, post: string, i: nat)
    requires i <= |v|
    requires forall k :: 0 <= k < |pre| ==> IsSpace(pre[k])
    requires forall k :: 0 <= k < i ==> IsSpace(v[k])
    ensures forall k :: 0 <= k < |pre| + i ==> IsSpace((pre + v + post)[k])
  {
    var s := pre + v + post;
    forall k | 0 <= k < |pre| + i ensures IsSpace(s[k]) {
      if k < |pre| {
        assert s[k] == pre[k];
      } else {
        assert s[k] == v[k - |pre|];
      }
    }
  }

  /** White space after a point of `v` stays white space once `post` is put
      behind. */
  lemma PaddedTrailing(pre: string, v: string, post: string, j: nat)
    requires j <= |v|
    requires forall k :: 0 <= k < |post| ==> IsSpace(post[k])
    requires forall k :: j <= k < |v| ==> IsSpace(v[k])
    ensures forall k :: |pre| + j <= k < |pre + v + post| ==> IsSpace((pre + v + post)[k])
  {
    var s := pre + v + post;
    forall k | |pre| + j <= k < |s| ensures IsSpace(s[k]) {
      if k < |pre| + |v| {
        assert s[k] == v[k - |pre|];
      } else {
        assert s[k] == post[k - |pre| - |v|];
      }
    }
  }

  /** Trimming keeps exactly the window between white-space margins. */
  lemma TrimSpaceWindow(s: string, a: nat, b: nat)
    requires a < b <= |s|
    requires forall k :: 0 <= k < a ==> IsSpace(s[k])
    requires forall k :: b <= k < |s| ==> IsSpace(s[k])
    requires !IsSpace(s[a]) && !IsSpace(s[b - 1])
    ensures TrimSpace(s) == s[a..b]
  {
    SkipPadding(s, 0, a);
    BackPadding(s, a, b, |s|);
  }

  /** A string made only of white space trims to the empty string. */
  lemma TrimSpaceBlank(s: string)
    requires forall k :: 0 <= k < |s| ==> IsSpace(s[k])
    ensures TrimSpace(s) == []
  {
    SkipPadding(s, 0, |s|);
  }

  /** White space around a string is trimmed away with its own. */
  lemma TrimSpacePadded(pre: string, v: string, post: string)
    requires forall k :: 0 <= k < |pre| ==> IsSpace(pre[k])
    requires forall k :: 0 <= k < |post| ==> IsSpace(post[k])
    ensures TrimSpace(pre + v + post) == TrimSpace(v)
  {
    var s := pre + v + post;
    var t := TrimSpace(v);
    var i := LeadingSpaces(v);
    var j := i + |t|;
    PaddedLeading(pre, v, post, i);
    PaddedTrailing(pre, v, post, j);
    PaddedSlice(pre, v, post, i, j);
    if t == [] {
      TrimSpaceBlank(s);
    } else {
      assert s[|pre| + i..|pre| + j] == t;
      TrimSpaceWindow(s, |pre| + i, |pre| + j);
    }
  }

  /** Normalisation ignores white space padding. */
  lemma LowerTrimmedPadded(pre: string, v: string, post: string)
    requires forall k :: 0 <= k < |pre| ==> IsSpace(pre[k])
    requires forall k :: 0 <= k < |post| ==> IsSpace(post[k])
    ensures LowerTrimmed(pre + v + post) == LowerTrimmed(v)
  {
    TrimSpacePadded(pre, v, post);
  }

  /** `strings.Contains`. */
  predicate Contains(s: string, sub: string) {
    exists i: nat | i <= |s| :: OccursAt(s, sub, i)
  }

  /** `sub` occurs in `s` starting at index `i`. */
  predicate OccursAt(s: string, sub: string, i: nat) {
    i + |sub| <= |s| && s[i..i + |sub|] == sub
  }
}
