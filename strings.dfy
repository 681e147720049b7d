/** The string operations of the Rust and Python standard libraries that the
    controller and the build pipeline use, on `seq<char>`. */
module Strings {

  /** `s.starts_with(prefix)` / `s.startswith(prefix)`. */
  predicate StartsWith(s: string, prefix: string) {
    |prefix| <= |s| && s[..|prefix|] == prefix
  }

  /** `s.endswith(suffix)`. */
  predicate EndsWith(s: string, suffix: string) {
    |suffix| <= |s| && s[|s| - |suffix|..] == suffix
  }

  /** `pat` occurs somewhere in `s`. */
  predicate Contains(s: string, pat: string)
    decreases |s|
  {
    StartsWith(s, pat) || (s != [] && Contains(s[1..], pat))
  }

  /** Rust's `str::replace`: every non-overlapping occurrence of `pat`,
      scanning left to right, is replaced by `rep`. */
  function ReplaceAll(s: string, pat: string, rep: string): (r: string)
    requires pat != []
    ensures !Contains(s, pat) ==> r == s
    decreases |s|
  {
    if s == [] then []
    else if StartsWith(s, pat) then rep + ReplaceAll(s[|pat|..], pat, rep)
    else [s[0]] + ReplaceAll(s[1..], pat, rep)
  }

  /** Replacing a pattern by itself leaves every string as it was. */
  lemma {:induction false} ReplaceBySelf(s: string, pat: string)
    requires pat != []
    ensures ReplaceAll(s, pat, pat) == s
    decreases |s|
  {
    if s == [] {
    } else if StartsWith(s, pat) {
      ReplaceBySelf(s[|pat|..], pat);
      assert s == pat + s[|pat|..];
    } else {
      ReplaceBySelf(s[1..], pat);
      assert s == [s[0]] + s[1..];
    }
  }

  /** A string none of whose characters starts `pat` does not contain it. */
  lemma {:induction false} MissingFirstCharNotContained(s: string, pat: string)
    requires pat != []
    requires forall i :: 0 <= i < |s| ==> s[i] != pat[0]
    ensures !Contains(s, pat)
    decreases |s|
  {
    if s != [] {
      MissingFirstCharNotContained(s[1..], pat);
    }
  }

  /** The pattern's first character occurs nowhere else in it, so two of its
      occurrences never overlap. */
  predicate FirstCharUnique(pat: string)
    requires pat != []
  {
    forall j :: 0 < j < |pat| ==> pat[j] != pat[0]
  }

  /** A self-avoiding pattern does not start inside a stretch that lacks it
      and run on into its own next occurrence. */
  lemma NoOccurrenceBeforePattern(a: string, pat: string, b: string)
    requires a != [] && pat != []
    requires FirstCharUnique(pat)
    requires !Contains(a, pat)
    ensures !StartsWith(a + pat + b, pat)
  {
    var s := a + pat + b;
    assert !StartsWith(a, pat);
    if |a| >= |pat| {
      assert s[..|pat|] == a[..|pat|];
    } else {
      assert s[|a|] == pat[0] != pat[|a|];
    }
  }

  /** For a pattern that cannot overlap itself (its first character occurs
      nowhere else in it), the first occurrence after a stretch without one
      is replaced, and the scan goes on after it. */
  lemma {:induction false} ReplaceFirstOccurrence(a: string, pat: string, b: string, rep: string)
    requires pat != []
    requires FirstCharUnique(pat)
    requires !Contains(a, pat)
    ensures ReplaceAll(a + pat + b, pat, rep) == a + rep + ReplaceAll(b, pat, rep)
    decreases |a|
  {
    if a == [] {
      assert a + pat + b == pat + b;
      ReplaceAtStart(pat, b, rep);
    } else {
      ReplaceSkipsFirstBeforePattern(a, pat, b, rep);
      ReplaceFirstOccurrence(a[1..], pat, b, rep);
      PrefixCharacter(a, rep, ReplaceAll(b, pat, rep));
    }
  }

  /** Putting back the first character of a non-empty prefix. */
  lemma PrefixCharacter(a: string, mid: string, rest: string)
    requires a != []
    ensures [a[0]] + (a[1..] + mid + rest) == a + mid + rest
  {
    assert a == [a[0]] + a[1..];
  }

  /** Before the first occurrence the scan moves on by one character. */
  lemma ReplaceSkipsFirstBeforePattern(a: string, pat: string, b: string, rep: string)
    requires a != [] && pat != []
    requires FirstCharUnique(pat)
    requires !Contains(a, pat)
    ensures !Contains(a[1..], pat)
    ensures ReplaceAll(a + pat + b, pat, rep) == [a[0]] + ReplaceAll(a[1..] + pat + b, pat, rep)
  {
    var s := a + pat + b;
    NoOccurrenceBeforePattern(a, pat, b);
    ReplaceSkipsFirst(s, pat, rep);
    assert s[0] == a[0] && s[1..] == a[1..] + pat + b;
  }

  /** A string that starts with the pattern has it replaced first. */
  lemma ReplaceAtStart(pat: string, b: string, rep: string)
    requires pat != []
    ensures ReplaceAll(pat + b, pat, rep) == rep + ReplaceAll(b, pat, rep)
  {
    var s := pat + b;
    assert s[..|pat|] == pat;
    assert s[|pat|..] == b;
  }

  /** A string that does not start with the pattern keeps its first character. */
  lemma ReplaceSkipsFirst(s: string, pat: string, rep: string)
    requires pat != [] && s != [] && !StartsWith(s, pat)
    ensures ReplaceAll(s, pat, rep) == [s[0]] + ReplaceAll(s[1..], pat, rep)
  {
  }

  /** Python's `sep.join(parts)`: the separator goes between parts only. */
  function Join(parts: seq<string>, sep: string): (r: string)
    ensures parts == [] ==> r == []
    ensures |parts| == 1 ==> r == parts[0]
    decreases |parts|
  {
    if parts == [] then []
    else if |parts| == 1 then parts[0]
    else parts[0] + sep + Join(parts[1..], sep)
  }

  /** The joined text starts with the first part. */
  lemma JoinStarts(parts: seq<string>, sep: string)
    requires parts != []
    ensures StartsWith(Join(parts, sep), parts[0])
  {
    if |parts| > 1 {
      var rest := sep + Join(parts[1..], sep);
      assert Join(parts, sep) == parts[0] + rest;
      assert (parts[0] + rest)[..|parts[0]|] == parts[0];
    }
  }

  /** The joined text ends with the last part: nothing follows it. */
  lemma {:induction false} JoinEnds(parts: seq<string>, sep: string)
    requires parts != []
    ensures EndsWith(Join(parts, sep), parts[|parts| - 1])
    decreases |parts|
  {
    if |parts| > 1 {
      var last := parts[|parts| - 1];
      var tail := Join(parts[1..], sep);
      JoinEnds(parts[1..], sep);
      assert parts[1..][|parts[1..]| - 1] == last;
      var front := parts[0] + sep;
      assert Join(parts, sep) == front + tail;
      assert (front + tail)[|front + tail| - |last|..] == tail[|tail| - |last|..];
    }
  }

  /** Rust's `to_lowercase` on the ASCII letters the model formats. */
  function ToLower(s: string): (r: string)
    ensures |r| == |s|
    ensures forall i :: 0 <= i < |s| ==> r[i] == LowerChar(s[i])
  {
    seq(|s|, i requires 0 <= i < |s| => LowerChar(s[i]))
  }

  function LowerChar(c: char): char {
    if 'A' <= c <= 'Z' then (c as int + 32) as char else c
  }

}
