/**
 * The simplified e-mail address pattern `^[^\s@]+@[^\s@]+\.[^\s@]+$` shared by
 * the contact form and the contact endpoint (it is not the RFC 5322 grammar).
 */
module EmailPattern {
  import opened Text

  /** A character matched by the class `[^\s@]`. */
  predicate IsAtomChar(c: char) {
    !IsSpace(c) && c != '@'
  }

  /** Every character of `s[lo..hi]` is matched by `[^\s@]`. */
  predicate AtomRun(s: string, lo: int, hi: int)
    requires 0 <= lo <= hi <= |s|
  {
    forall i :: lo <= i < hi ==> IsAtomChar(s[i])
  }

  /**
   * The pattern matches `s` with its `@` at index `at` and its escaped `.` at
   * index `dot`: `s[..at]`, `s[at + 1..dot]` and `s[dot + 1..]` are the three
   * non-empty runs of `[^\s@]+`.
   */
  predicate MatchesAt(s: string, at: int, dot: int) {
    && 0 < at && at + 1 < dot && dot + 1 < |s|
    && s[at] == '@' && s[dot] == '.'
    && AtomRun(s, 0, at) && AtomRun(s, at + 1, dot) && AtomRun(s, dot + 1, |s|)
  }

  /** The pattern matches `s` for some choice of the two split points. */
  predicate PatternMatches(s: string) {
    exists at, dot | 0 <= at < |s| && 0 <= dot < |s| :: MatchesAt(s, at, dot)
  }

  /**
   * `/^[^\s@]+@[^\s@]+\.[^\s@]+$/.test(s)`: true exactly for an address of
   * the shape `WellShaped` describes.
   */
  function MatchesEmailPattern(s: string): (r: bool)
    ensures r <==> WellShaped(s)
  {
    EmailPatternIff(s);
    PatternMatches(s)
  }

  /** Number of occurrences of `c` in `s[lo..hi]`. */
  function CountIn(s: string, c: char, lo: int, hi: int): (n: nat)
    requires 0 <= lo <= hi <= |s|
    ensures n <= hi - lo
    ensures n == 0 <==> forall m :: lo <= m < hi ==> s[m] != c
    decreases hi - lo
  {
    if lo == hi then 0 else (if s[lo] == c then 1 else 0) + CountIn(s, c, lo + 1, hi)
  }

  /** Counting over two adjacent ranges adds up. */
  lemma {:induction false} CountInSplit(s: string, c: char, lo: int, mid: int, hi: int)
    requires 0 <= lo <= mid <= hi <= |s|
    ensures CountIn(s, c, lo, hi) == CountIn(s, c, lo, mid) + CountIn(s, c, mid, hi)
    decreases mid - lo
  {
    if lo < mid {
      CountInSplit(s, c, lo + 1, mid, hi);
    }
  }

  /** Number of occurrences of `c` in `s`. */
  function CountChar(s: string, c: char): nat {
    CountIn(s, c, 0, |s|)
  }

  /** Index of the first `c` in `s` at or after `i`, or `|s|` when there is none. */
  function IndexOf(s: string, c: char, i: nat): (k: nat)
    requires i <= |s|
    ensures i <= k <= |s|
    ensures forall m :: i <= m < k ==> s[m] != c
    ensures k < |s| ==> s[k] == c
    decreases |s| - i
  {
    if i == |s| || s[i] == c then i else IndexOf(s, c, i + 1)
  }

  /** The description of an accepted address used by `EmailPatternIff`. */
  predicate WellShaped(s: string) {
    && CountChar(s, '@') == 1
    && (forall i :: 0 <= i < |s| ==> !IsSpace(s[i]))
    && var at := IndexOf(s, '@', 0);
       0 < at < |s| && exists k | at + 1 < k < |s| - 1 :: s[k] == '.'
  }

  /**
   * The pattern read as a description: an address is accepted exactly when it
   * contains exactly one `@`, no white space at all, at least one character
   * before the `@`, and after the `@` a `.` that is neither the first nor the
   * last character there.
   */
  lemma EmailPatternIff(s: string)
    ensures PatternMatches(s) <==> WellShaped(s)
  {
    if PatternMatches(s) {
      var at, dot :| 0 <= at < |s| && 0 <= dot < |s| && MatchesAt(s, at, dot);
      AcceptedShape(s, at, dot);
    }
    if WellShaped(s) {
      var at := IndexOf(s, '@', 0);
      var k :| at + 1 < k < |s| - 1 && s[k] == '.';
      CountInSplit(s, '@', 0, at, |s|);
      CountInSplit(s, '@', at, at + 1, |s|);
      assert MatchesAt(s, at, k);
    }
  }

  /** What a match at `at`, `dot` tells about the whole address. */
  lemma AcceptedShape(s: string, at: int, dot: int)
    requires MatchesAt(s, at, dot)
    ensures CountChar(s, '@') == 1
    ensures forall i :: 0 <= i < |s| ==> !IsSpace(s[i])
    ensures IndexOf(s, '@', 0) == at
  {
    CountInSplit(s, '@', 0, at, |s|);
    CountInSplit(s, '@', at, at + 1, |s|);
    CountInSplit(s, '@', at + 1, dot, |s|);
    CountInSplit(s, '@', dot, dot + 1, |s|);
  }

  /** An accepted address is non-empty and has nothing to trim. */
  lemma AcceptedIsTrimmed(s: string)
    requires MatchesEmailPattern(s)
    ensures s != [] && Trim(s) == s
  {
    var at, dot :| 0 <= at < |s| && 0 <= dot < |s| && MatchesAt(s, at, dot);
    AcceptedShape(s, at, dot);
    TrimWithoutSpace(s);
  }

  lemma AcceptsPlainAddress()
    ensures MatchesEmailPattern("a@b.co")
  {
    assert MatchesAt("a@b.co", 1, 3);
  }

  /** The pattern is anchored and excludes white space, so a leading space is rejected. */
  lemma RejectsLeadingSpace()
    ensures !MatchesEmailPattern(" a@b.co")
  {
    var s := " a@b.co";
    assert !IsAtomChar(s[0]);
  }

  /** A second `@` is rejected wherever it stands. */
  lemma RejectsDoubleAt()
    ensures !MatchesEmailPattern("a@@b.co")
  {
    var s := "a@@b.co";
    assert !IsAtomChar(s[1]) && !IsAtomChar(s[2]);
  }

  /** The domain needs a dot with a non-empty run on each side. */
  lemma RejectsMissingDot()
    ensures !MatchesEmailPattern("a@bco")
  {
    var s := "a@bco";
    assert forall k :: 0 <= k < |s| ==> s[k] != '.';
  }
}
