/**
  The two pieces of java.lang.String that both programs rely on:
  `trim()`, which both programs apply to every line they read, and
  `equalsIgnoreCase`, which the address book uses to compare names.
  `trim()` is modelled exactly (it strips characters up to U+0020);
  case folding covers only the ASCII letters.
 */
module Text {

  /** The characters `String.trim()` removes: every code unit up to and including the space. */
  predicate IsSpace(c: char) {
    c <= ' '
  }

  predicate AllSpace(s: string) {
    forall k :: 0 <= k < |s| ==> IsSpace(s[k])
  }

  /** A string `trim()` leaves as it is: empty, or without padding at either end. */
  predicate IsTrimmed(s: string) {
    s == [] || (!IsSpace(s[0]) && !IsSpace(s[|s| - 1]))
  }

  /** The first position at or after `from` that does not hold padding, or `|s|` if none does. */
  function SkipSpaces(s: string, from: nat): (n: nat)
    requires from <= |s|
    ensures from <= n <= |s|
    ensures forall k :: from <= k < n ==> IsSpace(s[k])
    ensures n < |s| ==> !IsSpace(s[n])
    decreases |s| - from
  {
    if from < |s| && IsSpace(s[from]) then SkipSpaces(s, from + 1) else from
  }

  /** Going back from `end`, the end of the text once the padding before `end` (and after `lo`) is dropped. */
  function SkipSpacesBack(s: string, lo: nat, end: nat): (n: nat)
    requires lo <= end <= |s|
    ensures lo <= n <= end
    ensures forall k :: n <= k < end ==> IsSpace(s[k])
    ensures n > lo ==> !IsSpace(s[n - 1])
    decreases end
  {
    if end > lo && IsSpace(s[end - 1]) then SkipSpacesBack(s, lo, end - 1) else end
  }

  /** `String.trim()`: the slice of `s` left once the padding at both ends is gone. */
  function Trim(s: string): (r: string)
    ensures |r| <= |s|
    ensures IsTrimmed(r)
    ensures r == [] <==> AllSpace(s)
  {
    var lo := SkipSpaces(s, 0);
    var hi := SkipSpacesBack(s, lo, |s|);
    assert lo < hi ==> s[lo..hi][0] == s[lo] && s[lo..hi][hi - lo - 1] == s[hi - 1];
    s[lo..hi]
  }

  /** `trim()` removes exactly the padding: any text without padding of its own comes back unchanged. */
  lemma TrimPadded(p: string, t: string, q: string)
    requires AllSpace(p) && AllSpace(q)
    requires IsTrimmed(t)
    ensures Trim(p + t + q) == t
  {
    var s := p + t + q;
    assert forall k :: 0 <= k < |p| ==> s[k] == p[k];
    assert forall k :: |p| + |t| <= k < |s| ==> s[k] == q[k - |p| - |t|];
    if t == [] {
      assert AllSpace(s);
    } else {
      assert s[|p|] == t[0] && s[|p| + |t| - 1] == t[|t| - 1];
      assert SkipSpaces(s, 0) == |p|;
      assert SkipSpacesBack(s, |p|, |s|) == |p| + |t|;
      assert s[|p|..|p| + |t|] == t;
    }
  }

  /** A line without padding comes back from `trim()` unchanged. */
  lemma TrimOfTrimmed(t: string)
    requires IsTrimmed(t)
    ensures Trim(t) == t
  {
  }

  /** Trimming twice is the same as trimming once. */
  lemma TrimIdempotent(s: string)
    ensures Trim(Trim(s)) == Trim(s)
  {
  }

  /** ASCII case folding: 'A'..'Z' become 'a'..'z', every other character is kept. */
  function FoldCase(c: char): (d: char)
    ensures 'A' <= c <= 'Z' ==> 'a' <= d <= 'z' && d as int - c as int == 32
    ensures !('A' <= c <= 'Z') ==> d == c
  {
    if 'A' <= c <= 'Z' then (c as int + 32) as char else c
  }

  /** The string in lower case, one character at a time. */
  function Lower(s: string): (r: string)
    ensures |r| == |s|
    ensures forall k :: 0 <= k < |s| ==> r[k] == FoldCase(s[k])
  {
    seq(|s|, k requires 0 <= k < |s| => FoldCase(s[k]))
  }

  /**
    `String.equalsIgnoreCase`: the lengths agree and, position by position, the
    characters agree once case is folded.
   */
  predicate EqualsIgnoreCase(a: string, b: string)
    ensures EqualsIgnoreCase(a, b) ==> |a| == |b|
    ensures a == b ==> EqualsIgnoreCase(a, b)
  {
    |a| == |b| && forall k :: 0 <= k < |a| ==> FoldCase(a[k]) == FoldCase(b[k])
  }

  /** Two strings are equal ignoring case exactly when their lower-case forms are equal. */
  lemma EqualsIgnoreCaseIsLowerEqual(a: string, b: string)
    ensures EqualsIgnoreCase(a, b) <==> Lower(a) == Lower(b)
  {
  }
}
