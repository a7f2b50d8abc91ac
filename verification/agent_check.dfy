/**
 * The post-generation check on a user-agent string: a fixed prefix,
 * balanced parenthesis counts, a minimum length, and at least one known
 * browser token and one known OS token somewhere in the text.
 */
module AgentCheck {

  const PREFIX := "Mozilla/5.0"
  const MIN_LENGTH := 30
  const BROWSER_PATTERNS: seq<string> := ["Chrome", "Firefox", "Safari", "Edg"]
  const OS_PATTERNS: seq<string> := ["Windows", "Mac OS X", "Linux", "X11"]

  /** `s.startswith(prefix)` */
  predicate StartsWith(s: string, prefix: string) {
    |prefix| <= |s| && s[..|prefix|] == prefix
  }

  /** `s.count(c)` for a one-character argument, scanning left to right. */
  function Count(s: string, c: char): nat {
    if s == [] then 0 else (if s[0] == c then 1 else 0) + Count(s[1..], c)
  }

  /** `p in s`, by scanning the start positions of `s` left to right. */
  predicate Contains(s: string, p: string)
    decreases |s|
  {
    StartsWith(s, p) || (|s| > 0 && Contains(s[1..], p))
  }

  /** `p` is the slice of `s` that starts at index `i`. */
  ghost predicate OccursAt(s: string, p: string, i: int) {
    0 <= i <= |s| - |p| && s[i..i + |p|] == p
  }

  /** Reference reading of `p in s`: some slice of `s` equals `p`. */
  ghost predicate Occurs(s: string, p: string) {
    exists i :: OccursAt(s, p, i)
  }

  /** `any(p in s for p in patterns)` */
  predicate ContainsAny(s: string, patterns: seq<string>) {
    exists k :: 0 <= k < |patterns| && Contains(s, patterns[k])
  }

  /** validate_user_agent: the five checks, in the order the source applies them. */
  predicate ValidUserAgent(ua: string) {
    if !StartsWith(ua, PREFIX) then false
    else if !Balanced(ua) then false
    else if |ua| < MIN_LENGTH then false
    else if !ContainsAny(ua, BROWSER_PATTERNS) then false
    else if !ContainsAny(ua, OS_PATTERNS) then false
    else true
  }

  /** The scanning search finds `p` exactly when some slice of `s` equals `p`. */
  lemma ContainsIff(s: string, p: string)
    ensures Contains(s, p) <==> Occurs(s, p)
  {
    if Contains(s, p) {
      var i := ContainsWitness(s, p);
    }
    if Occurs(s, p) {
      var i :| OccursAt(s, p, i);
      OccursContains(s, p, i);
    }
  }

  /** Where the scan succeeds: a start position of `p` in `s`. */
  lemma {:induction false} ContainsWitness(s: string, p: string) returns (i: int)
    requires Contains(s, p)
    ensures OccursAt(s, p, i)
    decreases |s|
  {
    if StartsWith(s, p) {
      i := 0;
    } else {
      var j := ContainsWitness(s[1..], p);
      assert s[1..][j..j + |p|] == s[j + 1..j + 1 + |p|];
      i := j + 1;
    }
  }

  /** A slice equal to `p` at position `i` is reached by the scan. */
  lemma {:induction false} OccursContains(s: string, p: string, i: int)
    requires OccursAt(s, p, i)
    ensures Contains(s, p)
    decreases i
  {
    if i > 0 {
      assert s[1..][i - 1..i - 1 + |p|] == s[i..i + |p|];
      OccursContains(s[1..], p, i - 1);
    }
  }

  /** A pattern found in a part of a string is found in the whole. */
  lemma ContainsInMiddle(a: string, b: string, c: string, p: string)
    requires Contains(b, p)
    ensures Contains(a + b + c, p)
  {
    ContainsIff(b, p);
    var i :| OccursAt(b, p, i);
    assert (a + b + c)[|a| + i..|a| + i + |p|] == b[i..i + |p|];
    assert OccursAt(a + b + c, p, |a| + i);
    ContainsIff(a + b + c, p);
  }

  /** A pattern found in a string is still found after more text is appended. */
  lemma ContainsThen(a: string, b: string, p: string)
    requires Contains(a, p)
    ensures Contains(a + b, p)
  {
    ContainsInMiddle("", a, b, p);
    assert "" + a + b == a + b;
  }

  /** A pattern found in a string is still found after more text is prepended. */
  lemma ContainsAfter(a: string, b: string, p: string)
    requires Contains(b, p)
    ensures Contains(a + b, p)
  {
    ContainsInMiddle(a, b, "", p);
    assert a + b + "" == a + b;
  }

  /** A slice equal to the pattern is found by the scan. */
  lemma ContainsAt(s: string, p: string, i: int)
    requires OccursAt(s, p, i)
    ensures Contains(s, p)
  {
    ContainsIff(s, p);
  }

  /**
   * validate_user_agent accepts exactly the strings of at least 30
   * characters that begin with "Mozilla/5.0", hold as many '(' as ')', and
   * have some browser pattern and some OS pattern as a slice.
   */
  lemma ValidUserAgentIff(ua: string)
    ensures ValidUserAgent(ua) <==>
              && |ua| >= 30
              && ua[..11] == "Mozilla/5.0"
              && multiset(ua)['('] == multiset(ua)[')']
              && (exists k :: 0 <= k < |BROWSER_PATTERNS| && Occurs(ua, BROWSER_PATTERNS[k]))
              && (exists k :: 0 <= k < |OS_PATTERNS| && Occurs(ua, OS_PATTERNS[k]))
  {
    CountIsMultiplicity(ua, '(');
    CountIsMultiplicity(ua, ')');
    forall k | 0 <= k < |BROWSER_PATTERNS| ensures Contains(ua, BROWSER_PATTERNS[k]) <==> Occurs(ua, BROWSER_PATTERNS[k]) {
      ContainsIff(ua, BROWSER_PATTERNS[k]);
    }
    forall k | 0 <= k < |OS_PATTERNS| ensures Contains(ua, OS_PATTERNS[k]) <==> Occurs(ua, OS_PATTERNS[k]) {
      ContainsIff(ua, OS_PATTERNS[k]);
    }
  }

  /** The scan counts exactly the multiplicity of `c` in `s`. */
  lemma {:induction false} CountIsMultiplicity(s: string, c: char)
    ensures Count(s, c) == multiset(s)[c]
  {
    if s != [] {
      CountIsMultiplicity(s[1..], c);
      assert s == [s[0]] + s[1..];
    }
  }

  /** Counting distributes over concatenation. */
  lemma {:induction false} CountAppend(a: string, b: string, c: char)
    ensures Count(a + b, c) == Count(a, c) + Count(b, c)
  {
    if a == [] {
      assert a + b == b;
    } else {
      CountAppend(a[1..], b, c);
      assert (a + b)[1..] == a[1..] + b;
    }
  }

  /** A character that does not occur is counted zero times. */
  lemma {:induction false} CountAbsent(s: string, c: char)
    requires c !in s
    ensures Count(s, c) == 0
  {
    if s != [] {
      CountAbsent(s[1..], c);
    }
  }

  /** Appending text without `c` leaves the count of `c` as it was. */
  lemma CountThenText(a: string, text: string, c: char)
    requires c !in text
    ensures Count(a + text, c) == Count(a, c)
  {
    CountAppend(a, text, c);
    CountAbsent(text, c);
  }

  /** Prepending text without `c` leaves the count of `c` as it was. */
  lemma CountAfterText(text: string, b: string, c: char)
    requires c !in text
    ensures Count(text + b, c) == Count(b, c)
  {
    CountAppend(text, b, c);
    CountAbsent(text, c);
  }

  /** As many opening as closing parentheses: the second check of validate_user_agent. */
  predicate Balanced(s: string) {
    Count(s, '(') == Count(s, ')')
  }

  /** A string lacking one letter of a pattern cannot contain the pattern. */
  lemma MissingLetter(s: string, p: string, ch: char)
    requires ch in p && ch !in s
    ensures !Contains(s, p)
  {
    ContainsIff(s, p);
    if Occurs(s, p) {
      var i :| OccursAt(s, p, i);
      assert false;
    }
  }

  /** `s` holds none of the letters 'C' of Chrome, 'F' of Firefox, 'S' of Safari and 'E' of Edg. */
  predicate NoBrowserLetter(s: string) {
    'C' !in s && 'F' !in s && 'S' !in s && 'E' !in s
  }

  /** `s` holds none of the letters 'w' of Windows, 'X' of Mac OS X and X11, and 'u' of Linux. */
  predicate NoOsLetter(s: string) {
    'w' !in s && 'X' !in s && 'u' !in s
  }

  /** A string without those letters holds no browser pattern. */
  lemma NoBrowserToken(s: string)
    requires NoBrowserLetter(s)
    ensures !ContainsAny(s, BROWSER_PATTERNS)
  {
    MissingLetter(s, "Chrome", 'C');
    MissingLetter(s, "Firefox", 'F');
    MissingLetter(s, "Safari", 'S');
    MissingLetter(s, "Edg", 'E');
  }

  /** A string without those letters holds no OS pattern. */
  lemma NoOsToken(s: string)
    requires NoOsLetter(s)
    ensures !ContainsAny(s, OS_PATTERNS)
  {
    MissingLetter(s, "Windows", 'w');
    MissingLetter(s, "Mac OS X", 'X');
    MissingLetter(s, "Linux", 'u');
    MissingLetter(s, "X11", 'X');
  }
}
