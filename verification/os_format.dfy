/**
 * The OS descriptor that goes between the parentheses of a user-agent
 * string, e.g. "Windows NT 10.0; Win64; x64" or "Macintosh; Intel Mac OS X 10_15_7".
 */
module OsFormat {
  import opened Wrappers
  import opened Json
  import opened Errors
  import opened AgentCheck

  /** `s.replace(".", "_")` */
  function ReplaceDots(s: string): (r: string)
    ensures |r| == |s|
    ensures forall k :: 0 <= k < |s| ==> r[k] == if s[k] == '.' then '_' else s[k]
  {
    if s == [] then "" else (if s[0] == '.' then "_" else [s[0]]) + ReplaceDots(s[1..])
  }

  /**
   * The version as a Mac OS descriptor writes it: left alone when it already
   * uses underscores, otherwise with every dot turned into an underscore.
   */
  function MacVersion(v: string): (r: string)
    ensures '_' in v ==> r == v
    ensures '_' !in v ==> '.' !in r
    ensures |r| == |v| && forall k :: 0 <= k < |v| ==> r[k] == v[k] || (v[k] == '.' && r[k] == '_')
  {
    if '_' in v then v else ReplaceDots(v)
  }

  /** The OS names that have a descriptor of their own. */
  predicate KnownOs(name: string) {
    name == "Windows" || name == "Mac OS" || name == "Linux"
  }

  /** get_os_string once both arguments are known to be strings. */
  function OsString(name: string, version: string): string {
    if name == "Windows" then "Windows NT " + version + "; Win64; x64"
    else if name == "Mac OS" then "Macintosh; Intel Mac OS X " + MacVersion(version)
    else if name == "Linux" then "X11; Linux " + version
    else name + " " + version
  }

  /**
   * get_os_string: the descriptor for an OS name and version, or a
   * UserAgentError when either of them is not a string.
   */
  function GetOsString(name: Json, version: Json): (r: Result<string, Error>)
    ensures r.Err? <==> !name.JString? || !version.JString?
    ensures r.Err? ==> r.error == UserAgentError(OsStringNotText)
  {
    if !name.JString? || !version.JString? then Err(UserAgentError(OsStringNotText))
    else Ok(OsString(name.s, version.s))
  }

  /** The descriptor for each recognised OS name, and the generic fallback. */
  lemma OsStringShapes(name: string, version: string)
    ensures name == "Windows" ==> OsString(name, version) == "Windows NT " + version + "; Win64; x64"
    ensures name == "Linux" ==> OsString(name, version) == "X11; Linux " + version
    ensures name == "Mac OS" ==> OsString(name, version) == "Macintosh; Intel Mac OS X " + MacVersion(version)
    ensures name == "Mac OS" && '_' in version ==> OsString(name, version) == "Macintosh; Intel Mac OS X " + version
    ensures name == "Mac OS" && '_' !in version ==> '.' !in OsString(name, version)[26..]
    ensures !KnownOs(name) ==> OsString(name, version) == name + " " + version
  {
    if name == "Mac OS" {
      var d := OsString(name, version);
      assert d == "Macintosh; Intel Mac OS X " + MacVersion(version);
      assert d[26..] == MacVersion(version);
    }
  }

  /** Formatting a Mac OS version a second time changes nothing. */
  lemma MacVersionIdempotent(v: string)
    ensures MacVersion(MacVersion(v)) == MacVersion(v)
  {
    var r := MacVersion(v);
    if '_' !in r {
      assert ReplaceDots(r) == r;
    }
  }

  /** The two Mac OS version spellings the program is meant to handle. */
  lemma MacVersionExamples()
    ensures MacVersion("10.15") == "10_15"
    ensures MacVersion("10_15_7") == "10_15_7"
  {
    assert '_' in "10_15_7" by { assert "10_15_7"[2] == '_'; }
    var r := ReplaceDots("10.15");
    assert r[0] == '1' && r[1] == '0' && r[2] == '_' && r[3] == '1' && r[4] == '5';
    assert r == "10_15";
  }

  lemma MacToken()
    ensures Contains("Macintosh; Intel Mac OS X ", "Mac OS X")
  {
    ContainsAt("Macintosh; Intel Mac OS X ", "Mac OS X", 17);
  }

  /**
   * A recognised OS name yields a descriptor that holds one of the OS
   * patterns the user-agent check looks for.
   */
  lemma KnownOsHasOsPattern(name: string, version: string)
    requires KnownOs(name)
    ensures ContainsAny(OsString(name, version), OS_PATTERNS)
  {
    if name == "Windows" {
      ContainsAt("Windows NT ", "Windows", 0);
      ContainsThen("Windows NT ", version, "Windows");
      ContainsThen("Windows NT " + version, "; Win64; x64", "Windows");
      assert Contains(OsString(name, version), OS_PATTERNS[0]);
    } else if name == "Mac OS" {
      MacToken();
      ContainsThen("Macintosh; Intel Mac OS X ", MacVersion(version), "Mac OS X");
      assert Contains(OsString(name, version), OS_PATTERNS[1]);
    } else {
      ContainsAt("X11; Linux ", "X11", 0);
      ContainsThen("X11; Linux ", version, "X11");
      assert Contains(OsString(name, version), OS_PATTERNS[3]);
    }
  }

  /**
   * The descriptor adds no parenthesis of its own: each parenthesis in it
   * comes from the name or the version, and the Mac OS rewrite keeps them.
   */
  lemma OsStringParens(name: string, version: string, c: char)
    requires c == '(' || c == ')'
    ensures Count(OsString(name, version), c) ==
              (if KnownOs(name) then 0 else Count(name, c)) + Count(version, c)
  {
    if name == "Windows" {
      WindowsParens(version, c);
    } else if name == "Mac OS" {
      MacParens(version, c);
    } else if name == "Linux" {
      CountAfterText("X11; Linux ", version, c);
    } else {
      CountThenText(name, " ", c);
      CountAppend(name + " ", version, c);
    }
  }

  lemma WindowsParens(version: string, c: char)
    requires c == '(' || c == ')'
    ensures Count("Windows NT " + version + "; Win64; x64", c) == Count(version, c)
  {
    CountAfterText("Windows NT ", version, c);
    CountThenText("Windows NT " + version, "; Win64; x64", c);
  }

  lemma MacParens(version: string, c: char)
    requires c == '(' || c == ')'
    ensures Count("Macintosh; Intel Mac OS X " + MacVersion(version), c) == Count(version, c)
  {
    CountAfterText("Macintosh; Intel Mac OS X ", MacVersion(version), c);
    MacVersionCount(version, c);
  }

  /** The Mac OS rewrite only turns dots into underscores, so other characters keep their counts. */
  lemma MacVersionCount(v: string, c: char)
    requires c != '.' && c != '_'
    ensures Count(MacVersion(v), c) == Count(v, c)
  {
    if '_' !in v {
      ReplaceDotsCount(v, c);
    }
  }

  lemma {:induction false} ReplaceDotsCount(v: string, c: char)
    requires c != '.' && c != '_'
    ensures Count(ReplaceDots(v), c) == Count(v, c)
  {
    if v != [] {
      ReplaceDotsCount(v[1..], c);
      CountAppend(if v[0] == '.' then "_" else [v[0]], ReplaceDots(v[1..]), c);
    }
  }
}
