/**
 * Recognition of the controller's trigger line (python/shiny_detector.py:81-82):
 * the decoded line is stripped of surrounding whitespace, as Python's
 * `str.strip()` does, and compared case-sensitively with "start".
 *
 * `str.strip()` scans forward from the start over whitespace, then backward
 * from the end over whitespace without passing the first scan's stop, and
 * keeps what lies between.
 */
module Trigger {

  const TriggerToken := "start"

  /** The characters Python's `str.isspace()` accepts, which `str.strip()` removes. */
  predicate IsSpace(c: char) {
    ('\U{9}' <= c <= '\U{D}') || ('\U{1C}' <= c <= '\U{20}') ||
    c == '\U{85}' || c == '\U{A0}' || c == '\U{1680}' ||
    ('\U{2000}' <= c <= '\U{200A}') || c == '\U{2028}' || c == '\U{2029}' ||
    c == '\U{202F}' || c == '\U{205F}' || c == '\U{3000}'
  }

  /** Every character of s at positions lo..hi-1 is whitespace. */
  predicate SpaceBetween(s: string, lo: int, hi: int)
    requires 0 <= lo && hi <= |s|
  {
    forall k :: lo <= k < hi ==> IsSpace(s[k])
  }

  /** The forward scan from position i: the first position at or after i that is not whitespace (or the end). */
  function SkipLeading(s: string, i: nat): (k: nat)
    requires i <= |s|
    ensures i <= k <= |s| && SpaceBetween(s, i, k)
    ensures k < |s| ==> !IsSpace(s[k])
    decreases |s| - i
  {
    if i < |s| && IsSpace(s[i]) then SkipLeading(s, i + 1) else i
  }

  /**
   * The backward scan from position j, stopping at lo: the smallest k >= lo
   * such that s[k..j] is all whitespace, so s[k - 1] is not whitespace unless k is lo.
   */
  function SkipTrailing(s: string, lo: nat, j: nat): (k: nat)
    requires lo <= j <= |s|
    ensures lo <= k <= j && SpaceBetween(s, k, j)
    ensures k > lo ==> !IsSpace(s[k - 1])
    decreases j
  {
    if j > lo && IsSpace(s[j - 1]) then SkipTrailing(s, lo, j - 1) else j
  }

  /** Python's `str.strip()` with no argument. */
  function Strip(s: string): string {
    var i := SkipLeading(s, 0);
    s[i..SkipTrailing(s, i, |s|)]
  }

  lemma {:induction false} SkipLeadingAt(s: string, i0: nat, i: nat)
    requires i0 <= i <= |s| && SpaceBetween(s, i0, i) && (i < |s| ==> !IsSpace(s[i]))
    ensures SkipLeading(s, i0) == i
    decreases i - i0
  {
    if i0 < i {
      SkipLeadingAt(s, i0 + 1, i);
    }
  }

  lemma {:induction false} SkipTrailingAt(s: string, lo: nat, j0: nat, j: nat)
    requires lo <= j <= j0 <= |s| && SpaceBetween(s, j, j0) && (j > lo ==> !IsSpace(s[j - 1]))
    ensures SkipTrailing(s, lo, j0) == j
    decreases j0 - j
  {
    if j < j0 {
      SkipTrailingAt(s, lo, j0 - 1, j);
    }
  }

  /**
   * The stripped line is the slice s[i..j] exactly when only whitespace lies
   * outside it and the slice neither starts nor ends with whitespace.
   */
  lemma StripUnique(s: string, i: nat, j: nat)
    requires i <= j <= |s| && SpaceBetween(s, 0, i) && SpaceBetween(s, j, |s|)
    requires i < j ==> !IsSpace(s[i]) && !IsSpace(s[j - 1])
    ensures Strip(s) == s[i..j]
  {
    if i < j {
      SkipLeadingAt(s, 0, i);
      SkipTrailingAt(s, i, |s|, j);
    } else {
      assert SpaceBetween(s, 0, |s|);
      SkipLeadingAt(s, 0, |s|);
      SkipTrailingAt(s, |s|, |s|, |s|);
    }
  }

  /** The stripped line has only whitespace around it in the line, and no whitespace at its ends. */
  lemma StripShape(s: string)
    ensures exists i: nat, j: nat ::
              i <= j <= |s| && Strip(s) == s[i..j] &&
              SpaceBetween(s, 0, i) && SpaceBetween(s, j, |s|) &&
              (i < j ==> !IsSpace(s[i]) && !IsSpace(s[j - 1]))
  {
    var i := SkipLeading(s, 0);
    var j := SkipTrailing(s, i, |s|);
    assert Strip(s) == s[i..j];
  }

  /** Whether a received line is the trigger. */
  predicate IsTrigger(line: string) {
    Strip(line) == TriggerToken
  }

  /**
   * A line is the trigger exactly when it is "start" (exactly, case-sensitive)
   * with nothing but whitespace before and after it.
   */
  lemma TriggerIff(line: string)
    ensures IsTrigger(line) <==>
      exists i: nat :: i + 5 <= |line| && line[i..i + 5] == TriggerToken &&
        SpaceBetween(line, 0, i) && SpaceBetween(line, i + 5, |line|)
  {
    var lo := SkipLeading(line, 0);
    var hi := SkipTrailing(line, lo, |line|);
    assert Strip(line) == line[lo..hi];
    if IsTrigger(line) {
      assert hi == lo + 5 && line[lo..lo + 5] == TriggerToken;
    }
    if exists i: nat :: i + 5 <= |line| && line[i..i + 5] == TriggerToken &&
        SpaceBetween(line, 0, i) && SpaceBetween(line, i + 5, |line|) {
      var i: nat :| i + 5 <= |line| && line[i..i + 5] == TriggerToken &&
        SpaceBetween(line, 0, i) && SpaceBetween(line, i + 5, |line|);
      assert line[i] == line[i..i + 5][0];
      assert line[i + 4] == line[i..i + 5][4];
      StripUnique(line, i, i + 5);
    }
  }

  /** Line endings and surrounding blanks are ignored. */
  lemma TriggerAccepts(line: string)
    requires line == "start" || line == "start\r\n" || line == " start\t"
    ensures IsTrigger(line)
  {
    if line == " start\t" {
      StripUnique(line, 1, 6);
    } else {
      StripUnique(line, 0, 5);
    }
  }

  /** Case and every character between the surrounding blanks matter. */
  lemma TriggerRejects(line: string)
    requires line == "Start" || line == "START\n" || line == "start!" || line == "st art" || line == ""
    ensures !IsTrigger(line)
  {
    if line == "START\n" {
      StripUnique(line, 0, 5);
    } else {
      StripUnique(line, 0, |line|);
    }
  }
}
