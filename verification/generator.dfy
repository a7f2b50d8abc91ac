/**
 * generate_user_agent: filter the browsers that have OS data and versions,
 * choose a browser and a version, filter its OS entries that have versions,
 * choose an OS and an OS version, fill the template of the browser family,
 * and re-check the result with validate_user_agent.
 *
 * Each random.choice is replaced by an arbitrary natural number reduced
 * modulo the length of the list it chooses from, so every position of every
 * list can be chosen and no choice is out of range; the properties below
 * hold for every choice.
 */
module Generator {
  import opened Wrappers
  import opened Json
  import opened Errors
  import opened AgentCheck
  import opened OsFormat
  import opened Catalog

  /** The four random draws: browser, browser version, OS, OS version. */
  datatype Choice = Choice(browser: nat, version: nat, os: nat, osVersion: nat)

  /** What the draws select, before any formatting. */
  datatype Selection = Selection(
    browser: Json,    // the chosen browser entry
    name: Json,       // browser['name']
    version: Json,    // the chosen element of browser['versions']
    os: Json,         // the chosen OS entry
    osName: Json,     // os_info['name']
    osVersion: Json)  // the chosen element of os_info['versions']

  /** `random.choice(s)` with the draw `n`. */
  function Pick<T>(s: seq<T>, n: nat): (r: T)
    requires |s| > 0
    ensures r in s
  {
    s[n % |s|]
  }

  /** `[x for x in s if p(x)]` */
  function Filter(s: seq<Json>, p: Json -> bool): (r: seq<Json>)
    ensures |r| <= |s|
    ensures forall x :: x in r <==> x in s && p(x)
    ensures (forall k :: 0 <= k < |s| ==> p(s[k])) ==> r == s
  {
    if s == [] then []
    else
      assert forall x :: x in s <==> x == s[0] || x in s[1..];
      (if p(s[0]) then [s[0]] else []) + Filter(s[1..], p)
  }

  /** Every element is a dict, so `x.get(...)` raises no AttributeError on any of them. */
  predicate AllObjects(s: seq<Json>) {
    forall k :: 0 <= k < |s| ==> s[k].JObject?
  }

  /** The browser filter: `browser.get('os')` is truthy and `browser['versions']` is a non-empty list. */
  predicate FeasibleBrowser(b: Json) {
    b.JObject? && Truthy(Get(b.fields, "os")) && IsNonEmptyArray(Get(b.fields, "versions"))
  }

  /** The OS filter: `os_info.get('versions')` is a non-empty list. */
  predicate FeasibleOs(o: Json) {
    o.JObject? && IsNonEmptyArray(Get(o.fields, "versions"))
  }

  /**
   * The selection steps of generate_user_agent, with every way they fail:
   * EmptyData when there is nothing to choose from, and a plain
   * UserAgentError for the KeyError, AttributeError or TypeError that a
   * malformed document raises on the way.
   */
  function Select(data: Json, c: Choice): (r: Result<Selection, Error>)
    ensures r.Err? ==> r.error.EmptyData? || r.error == UserAgentError(UnexpectedException)
    ensures r.Ok? ==>
              && data.JObject? && Get(data.fields, "browsers").JArray?
              && var sel := r.value;
                 && sel.browser in Get(data.fields, "browsers").items
                 && FeasibleBrowser(sel.browser)
                 && HasKey(sel.browser.fields, "name") && sel.name == Get(sel.browser.fields, "name")
                 && sel.version in Get(sel.browser.fields, "versions").items
                 && Get(sel.browser.fields, "os").JArray?
                 && sel.os in Get(sel.browser.fields, "os").items
                 && FeasibleOs(sel.os)
                 && HasKey(sel.os.fields, "name") && sel.osName == Get(sel.os.fields, "name")
                 && sel.osVersion in Get(sel.os.fields, "versions").items
  {
    if !Truthy(data) || !data.JObject? || !HasKey(data.fields, "browsers") then Err(EmptyData(NoData))
    else
      var browsers := Get(data.fields, "browsers");
      if !Truthy(browsers) then Err(EmptyData(NoBrowserData))
      // A truthy non-list is iterated as characters or keys, or is not
      // iterable at all; a non-dict element has no `get`.
      else if !browsers.JArray? || !AllObjects(browsers.items) then Err(UserAgentError(UnexpectedException))
      else
        var feasible := Filter(browsers.items, FeasibleBrowser);
        if |feasible| == 0 then Err(EmptyData(NoFeasibleBrowser))
        else
          var browser := Pick(feasible, c.browser);
          if !HasKey(browser.fields, "name") then Err(UserAgentError(UnexpectedException))
          else
            var version := Pick(Get(browser.fields, "versions").items, c.version);
            var osList := Get(browser.fields, "os");
            if !osList.JArray? || !AllObjects(osList.items) then Err(UserAgentError(UnexpectedException))
            else
              var feasibleOs := Filter(osList.items, FeasibleOs);
              if |feasibleOs| == 0 then Err(EmptyData(NoFeasibleOs))
              else
                var os := Pick(feasibleOs, c.os);
                if !HasKey(os.fields, "name") then Err(UserAgentError(UnexpectedException))
                else
                  var osVersion := Pick(Get(os.fields, "versions").items, c.osVersion);
                  Ok(Selection(browser, Get(browser.fields, "name"), version, os, Get(os.fields, "name"), osVersion))
  }

  /** `(s)` */
  function Paren(s: string): string {
    "(" + s + ")"
  }

  /** The browser names that have a template of their own. */
  predicate KnownBrowser(name: Json) {
    name == JString("Chrome") || name == JString("Firefox") || name == JString("Safari") || name == JString("Edge")
  }

  /**
   * The template of each browser family, filled with the browser name and
   * version and the OS descriptor; each parenthesised group of the text is
   * written as a Paren. An unknown name gets the WebKit template with the
   * name itself as the product token.
   */
  function UserAgent(name: Json, version: Json, os: string): string {
    var v := Str(version);
    if name == JString("Chrome") then WebKitHead(os, "537.36") + " Chrome/" + v + " Safari/537.36"
    else if name == JString("Firefox") then "Mozilla/5.0 " + Paren(os + "; rv:" + v) + " Gecko/20100101 Firefox/" + v
    else if name == JString("Safari") then WebKitHead(os, "605.1.15") + " Version/" + v + " Safari/605.1.15"
    else if name == JString("Edge") then WebKitHead(os, "537.36") + " Edg/" + v
    else WebKitHead(os, "537.36") + " " + Str(name) + "/" + v
  }

  /** The part the WebKit templates share: `Mozilla/5.0 (os) AppleWebKit/build (KHTML, like Gecko)`. */
  function WebKitHead(os: string, build: string): string {
    "Mozilla/5.0 " + Paren(os) + " AppleWebKit/" + build + " " + Paren("KHTML, like Gecko")
  }

  // Literal pieces of the templates, joined one step at a time.
  lemma MozillaOpenLit() ensures "Mozilla/5.0 " + "(" == "Mozilla/5.0 (" {}
  lemma CloseWebKitLit() ensures ")" + " AppleWebKit/" == ") AppleWebKit/" {}
  lemma KhtmlLit() ensures " " + Paren("KHTML, like Gecko") == " (KHTML, like Gecko)" {}
  lemma Build537Lit() ensures ") AppleWebKit/" + "537.36" == ") AppleWebKit/537.36" {}
  lemma Build605Lit() ensures ") AppleWebKit/" + "605.1.15" == ") AppleWebKit/605.1.15" {}
  lemma ChromeLit()
    ensures ") AppleWebKit/537.36" + " (KHTML, like Gecko)" + " Chrome/" == ") AppleWebKit/537.36 (KHTML, like Gecko) Chrome/" {}
  lemma EdgeLit()
    ensures ") AppleWebKit/537.36" + " (KHTML, like Gecko)" + " Edg/" == ") AppleWebKit/537.36 (KHTML, like Gecko) Edg/" {}
  lemma OtherLit()
    ensures ") AppleWebKit/537.36" + " (KHTML, like Gecko)" + " " == ") AppleWebKit/537.36 (KHTML, like Gecko) " {}
  lemma SafariLit()
    ensures ") AppleWebKit/605.1.15" + " (KHTML, like Gecko)" + " Version/" == ") AppleWebKit/605.1.15 (KHTML, like Gecko) Version/" {}
  lemma FirefoxLit() ensures ")" + " Gecko/20100101 Firefox/" == ") Gecko/20100101 Firefox/" {}

  lemma Regroup(a: string, b: string, c: string, d: string, e: string)
    ensures a + b + c + d + e == a + (b + c + d + e)
  {
  }

  /** The shared WebKit text, written out flat. */
  lemma WebKitHeadShape(os: string, build: string)
    ensures WebKitHead(os, build) == "Mozilla/5.0 (" + os + ") AppleWebKit/" + build + " (KHTML, like Gecko)"
  {
    MozillaOpenLit();
    CloseWebKitLit();
    KhtmlLit();
  }

  lemma WebKitTemplateShape(os: string, build: string, tail: string, whole: string)
    requires ") AppleWebKit/" + build + " (KHTML, like Gecko)" + tail == whole
    ensures WebKitHead(os, build) + tail == "Mozilla/5.0 (" + os + whole
  {
    WebKitHeadShape(os, build);
    Regroup("Mozilla/5.0 (" + os, ") AppleWebKit/", build, " (KHTML, like Gecko)", tail);
  }

  /**
   * Each template as the source writes it: the OS descriptor right after
   * "Mozilla/5.0 (", then a tail fixed by the browser name around the
   * version (and, for a browser without a template, around the name).
   */
  lemma ChromeShape(version: Json, os: string)
    ensures UserAgent(JString("Chrome"), version, os) ==
              "Mozilla/5.0 (" + os + ") AppleWebKit/537.36 (KHTML, like Gecko) Chrome/" + Str(version) + " Safari/537.36"
  {
    Build537Lit();
    ChromeLit();
    WebKitTemplateShape(os, "537.36", " Chrome/", ") AppleWebKit/537.36 (KHTML, like Gecko) Chrome/");
  }

  lemma FirefoxShape(version: Json, os: string)
    ensures UserAgent(JString("Firefox"), version, os) ==
              "Mozilla/5.0 (" + os + "; rv:" + Str(version) + ") Gecko/20100101 Firefox/" + Str(version)
  {
    MozillaOpenLit();
    FirefoxLit();
    Regroup("Mozilla/5.0 ", "(", os + "; rv:" + Str(version), ")", " Gecko/20100101 Firefox/");
  }

  lemma SafariShape(version: Json, os: string)
    ensures UserAgent(JString("Safari"), version, os) ==
              "Mozilla/5.0 (" + os + ") AppleWebKit/605.1.15 (KHTML, like Gecko) Version/" + Str(version) + " Safari/605.1.15"
  {
    Build605Lit();
    SafariLit();
    WebKitTemplateShape(os, "605.1.15", " Version/", ") AppleWebKit/605.1.15 (KHTML, like Gecko) Version/");
  }

  lemma EdgeShape(version: Json, os: string)
    ensures UserAgent(JString("Edge"), version, os) ==
              "Mozilla/5.0 (" + os + ") AppleWebKit/537.36 (KHTML, like Gecko) Edg/" + Str(version)
  {
    Build537Lit();
    EdgeLit();
    WebKitTemplateShape(os, "537.36", " Edg/", ") AppleWebKit/537.36 (KHTML, like Gecko) Edg/");
  }

  lemma OtherShape(name: Json, version: Json, os: string)
    requires !KnownBrowser(name)
    ensures UserAgent(name, version, os) ==
              "Mozilla/5.0 (" + os + ") AppleWebKit/537.36 (KHTML, like Gecko) " + Str(name) + "/" + Str(version)
  {
    Build537Lit();
    OtherLit();
    WebKitTemplateShape(os, "537.36", " ", ") AppleWebKit/537.36 (KHTML, like Gecko) ");
  }

  /**
   * generate_user_agent: a string that passes validate_user_agent, or the
   * error the source raises. Errors of the selection steps and of the OS
   * formatter pass through unchanged; a filled template that fails the
   * check is reported as InvalidUserAgent carrying that string.
   */
  function GenerateUserAgent(data: Json, c: Choice): (r: Result<string, Error>)
    ensures r.Ok? ==> ValidUserAgent(r.value)
    ensures r.Err? ==> r.error.EmptyData? || r.error.InvalidUserAgent? || r.error.UserAgentError?
    ensures Select(data, c).Err? ==> r == Err(Select(data, c).error)
    ensures r.Err? && r.error.InvalidUserAgent? ==>
              && Select(data, c).Ok?
              && !ValidUserAgent(r.error.agent)
  {
    match Select(data, c)
    case Err(e) => Err(e)
    case Ok(sel) =>
      match GetOsString(sel.osName, sel.osVersion)
      case Err(e) => Err(e)
      case Ok(os) =>
        var agent := UserAgent(sel.name, sel.version, os);
        if !ValidUserAgent(agent) then Err(InvalidUserAgent(agent)) else Ok(agent)
  }

  /** Appending a parenthesised group adds one parenthesis of each kind. */
  lemma CountThenParen(a: string, s: string, c: char)
    requires c == '(' || c == ')'
    ensures Count(a + Paren(s), c) == Count(a, c) + 1 + Count(s, c)
  {
    CountAppend(a, Paren(s), c);
    CountAppend("(" + s, ")", c);
    CountAppend("(", s, c);
  }

  lemma CountThenPlainParen(a: string, s: string, c: char)
    requires c == '(' || c == ')'
    requires c !in s
    ensures Count(a + Paren(s), c) == Count(a, c) + 1
  {
    CountThenParen(a, s, c);
    CountAbsent(s, c);
  }

  lemma CountTextThenParen(text: string, s: string, c: char)
    requires c == '(' || c == ')'
    requires c !in text
    ensures Count(text + Paren(s), c) == 1 + Count(s, c)
  {
    CountThenParen(text, s, c);
    CountAbsent(text, c);
  }

  /** The shared WebKit text holds two parenthesised groups. */
  lemma WebKitHeadParens(os: string, build: string, c: char)
    requires c == '(' || c == ')'
    requires c !in build
    ensures Count(WebKitHead(os, build), c) == 2 + Count(os, c)
  {
    CountTextThenParen("Mozilla/5.0 ", os, c);
    var a := "Mozilla/5.0 " + Paren(os);
    CountThenText(a, " AppleWebKit/", c);
    CountThenText(a + " AppleWebKit/", build, c);
    CountThenText(a + " AppleWebKit/" + build, " ", c);
    CountThenPlainParen(a + " AppleWebKit/" + build + " ", "KHTML, like Gecko", c);
  }

  /** Firefox's text holds one group, around the descriptor and the version. */
  lemma FirefoxParens(os: string, v: string, c: char)
    requires c == '(' || c == ')'
    ensures Count("Mozilla/5.0 " + Paren(os + "; rv:" + v) + " Gecko/20100101 Firefox/" + v, c) ==
              1 + Count(os, c) + 2 * Count(v, c)
  {
    CountTextThenParen("Mozilla/5.0 ", os + "; rv:" + v, c);
    CountThenText(os, "; rv:", c);
    CountAppend(os + "; rv:", v, c);
    var group := "Mozilla/5.0 " + Paren(os + "; rv:" + v);
    CountThenText(group, " Gecko/20100101 Firefox/", c);
    CountAppend(group + " Gecko/20100101 Firefox/", v, c);
  }

  /** The Chrome and Safari texts: the WebKit head, then the version between two fixed pieces. */
  lemma WebKitTemplateParens(os: string, build: string, before: string, v: string, after: string, c: char)
    requires c == '(' || c == ')'
    requires c !in build && c !in before && c !in after
    ensures Count(WebKitHead(os, build) + before + v + after, c) == 2 + Count(os, c) + Count(v, c)
  {
    var head := WebKitHead(os, build);
    WebKitHeadParens(os, build, c);
    CountThenText(head, before, c);
    CountAppend(head + before, v, c);
    CountThenText(head + before + v, after, c);
  }

  lemma ChromeParens(os: string, v: string, c: char)
    requires c == '(' || c == ')'
    ensures Count(WebKitHead(os, "537.36") + " Chrome/" + v + " Safari/537.36", c) == 2 + Count(os, c) + Count(v, c)
  {
    WebKitTemplateParens(os, "537.36", " Chrome/", v, " Safari/537.36", c);
  }

  lemma SafariParens(os: string, v: string, c: char)
    requires c == '(' || c == ')'
    ensures Count(WebKitHead(os, "605.1.15") + " Version/" + v + " Safari/605.1.15", c) == 2 + Count(os, c) + Count(v, c)
  {
    WebKitTemplateParens(os, "605.1.15", " Version/", v, " Safari/605.1.15", c);
  }

  lemma EdgeParens(os: string, v: string, c: char)
    requires c == '(' || c == ')'
    ensures Count(WebKitHead(os, "537.36") + " Edg/" + v, c) == 2 + Count(os, c) + Count(v, c)
  {
    var head := WebKitHead(os, "537.36");
    WebKitHeadParens(os, "537.36", c);
    CountThenText(head, " Edg/", c);
    CountAppend(head + " Edg/", v, c);
  }

  lemma OtherParens(os: string, name: string, v: string, c: char)
    requires c == '(' || c == ')'
    ensures Count(WebKitHead(os, "537.36") + " " + name + "/" + v, c) == 2 + Count(os, c) + Count(v, c) + Count(name, c)
  {
    var head := WebKitHead(os, "537.36");
    WebKitHeadParens(os, "537.36", c);
    CountThenText(head, " ", c);
    CountAppend(head + " ", name, c);
    CountThenText(head + " " + name, "/", c);
    CountAppend(head + " " + name + "/", v, c);
  }

  /**
   * The fixed text of every template holds matched parentheses: two groups
   * for the WebKit templates, one for Firefox, whose group also holds the
   * version, which Firefox writes twice.
   */
  lemma UserAgentParens(name: Json, version: Json, os: string, c: char)
    requires c == '(' || c == ')'
    ensures Count(UserAgent(name, version, os), c) ==
              if name == JString("Firefox") then 1 + Count(os, c) + 2 * Count(Str(version), c)
              else 2 + Count(os, c) + Count(Str(version), c) + (if KnownBrowser(name) then 0 else Count(Str(name), c))
  {
    var v := Str(version);
    if name == JString("Chrome") {
      ChromeParens(os, v, c);
    } else if name == JString("Firefox") {
      FirefoxParens(os, v, c);
    } else if name == JString("Safari") {
      SafariParens(os, v, c);
    } else if name == JString("Edge") {
      EdgeParens(os, v, c);
    } else {
      OtherParens(os, Str(name), v, c);
    }
  }

  /** Text after a prefix does not change that it is a prefix. */
  lemma StartsWithThen(a: string, b: string, prefix: string)
    requires StartsWith(a, prefix)
    ensures StartsWith(a + b, prefix)
  {
    assert (a + b)[..|prefix|] == a[..|prefix|];
  }

  lemma OpeningPrefix(inner: string)
    ensures StartsWith("Mozilla/5.0 " + Paren(inner), "Mozilla/5.0 (")
  {
    assert ("Mozilla/5.0 " + Paren(inner))[..13] == "Mozilla/5.0 " + "(";
  }

  lemma WebKitHeadPrefix(os: string, build: string)
    ensures StartsWith(WebKitHead(os, build), "Mozilla/5.0 (")
    ensures |WebKitHead(os, build)| >= MIN_LENGTH
  {
    var a := "Mozilla/5.0 " + Paren(os);
    OpeningPrefix(os);
    StartsWithThen(a, " AppleWebKit/", "Mozilla/5.0 (");
    StartsWithThen(a + " AppleWebKit/", build, "Mozilla/5.0 (");
    StartsWithThen(a + " AppleWebKit/" + build, " ", "Mozilla/5.0 (");
    StartsWithThen(a + " AppleWebKit/" + build + " ", Paren("KHTML, like Gecko"), "Mozilla/5.0 (");
  }

  lemma FirefoxPrefix(os: string, v: string)
    ensures StartsWith("Mozilla/5.0 " + Paren(os + "; rv:" + v) + " Gecko/20100101 Firefox/" + v, "Mozilla/5.0 (")
  {
    var group := "Mozilla/5.0 " + Paren(os + "; rv:" + v);
    OpeningPrefix(os + "; rv:" + v);
    StartsWithThen(group, " Gecko/20100101 Firefox/", "Mozilla/5.0 (");
    StartsWithThen(group + " Gecko/20100101 Firefox/", v, "Mozilla/5.0 (");
  }

  /** A WebKit text with the version between two fixed pieces keeps the head's prefix. */
  lemma WebKitTemplatePrefix(os: string, build: string, before: string, v: string, after: string)
    ensures StartsWith(WebKitHead(os, build) + before + v + after, "Mozilla/5.0 (")
    ensures |WebKitHead(os, build) + before + v + after| >= MIN_LENGTH
  {
    var head := WebKitHead(os, build);
    WebKitHeadPrefix(os, build);
    StartsWithThen(head, before, "Mozilla/5.0 (");
    StartsWithThen(head + before, v, "Mozilla/5.0 (");
    StartsWithThen(head + before + v, after, "Mozilla/5.0 (");
  }

  lemma EdgePrefix(os: string, v: string)
    ensures StartsWith(WebKitHead(os, "537.36") + " Edg/" + v, "Mozilla/5.0 (")
    ensures |WebKitHead(os, "537.36") + " Edg/" + v| >= MIN_LENGTH
  {
    var head := WebKitHead(os, "537.36");
    WebKitHeadPrefix(os, "537.36");
    StartsWithThen(head, " Edg/", "Mozilla/5.0 (");
    StartsWithThen(head + " Edg/", v, "Mozilla/5.0 (");
  }

  lemma OtherPrefix(os: string, n: string, v: string)
    ensures StartsWith(WebKitHead(os, "537.36") + " " + n + "/" + v, "Mozilla/5.0 (")
    ensures |WebKitHead(os, "537.36") + " " + n + "/" + v| >= MIN_LENGTH
  {
    WebKitTemplatePrefix(os, "537.36", " " + n, "/", v);
    assert WebKitHead(os, "537.36") + (" " + n) + "/" + v == WebKitHead(os, "537.36") + " " + n + "/" + v;
  }

  /** Every template begins with "Mozilla/5.0 (" and is long enough for the length check. */
  lemma UserAgentPrefix(name: Json, version: Json, os: string)
    ensures StartsWith(UserAgent(name, version, os), "Mozilla/5.0 (")
    ensures StartsWith(UserAgent(name, version, os), PREFIX)
    ensures |UserAgent(name, version, os)| >= MIN_LENGTH
  {
    var v := Str(version);
    var ua := UserAgent(name, version, os);
    if name == JString("Chrome") {
      WebKitTemplatePrefix(os, "537.36", " Chrome/", v, " Safari/537.36");
    } else if name == JString("Firefox") {
      FirefoxPrefix(os, v);
    } else if name == JString("Safari") {
      WebKitTemplatePrefix(os, "605.1.15", " Version/", v, " Safari/605.1.15");
    } else if name == JString("Edge") {
      EdgePrefix(os, v);
    } else {
      OtherPrefix(os, Str(name), v);
    }
    assert ua[..|PREFIX|] == ua[..13][..11];
  }

  /** A pattern in the OS descriptor is found in the shared WebKit text. */
  lemma WebKitHeadContains(os: string, build: string, p: string)
    requires Contains(os, p)
    ensures Contains(WebKitHead(os, build), p)
  {
    ContainsInMiddle("(", os, ")", p);
    ContainsAfter("Mozilla/5.0 ", Paren(os), p);
    var a := "Mozilla/5.0 " + Paren(os);
    ContainsThen(a, " AppleWebKit/", p);
    ContainsThen(a + " AppleWebKit/", build, p);
    ContainsThen(a + " AppleWebKit/" + build, " ", p);
    ContainsThen(a + " AppleWebKit/" + build + " ", Paren("KHTML, like Gecko"), p);
  }

  /** Whatever pattern the OS descriptor holds, the filled template holds too. */
  lemma UserAgentKeepsOs(name: Json, version: Json, os: string, p: string)
    requires Contains(os, p)
    ensures Contains(UserAgent(name, version, os), p)
  {
    var v := Str(version);
    if name == JString("Firefox") {
      ContainsThen(os, "; rv:", p);
      ContainsThen(os + "; rv:", v, p);
      ContainsInMiddle("(", os + "; rv:" + v, ")", p);
      ContainsAfter("Mozilla/5.0 ", Paren(os + "; rv:" + v), p);
      var group := "Mozilla/5.0 " + Paren(os + "; rv:" + v);
      ContainsThen(group, " Gecko/20100101 Firefox/", p);
      ContainsThen(group + " Gecko/20100101 Firefox/", v, p);
    } else if name == JString("Safari") {
      var head := WebKitHead(os, "605.1.15");
      WebKitHeadContains(os, "605.1.15", p);
      ContainsThen(head, " Version/", p);
      ContainsThen(head + " Version/", v, p);
      ContainsThen(head + " Version/" + v, " Safari/605.1.15", p);
    } else {
      var head := WebKitHead(os, "537.36");
      WebKitHeadContains(os, "537.36", p);
      if name == JString("Chrome") {
        ContainsThen(head, " Chrome/", p);
        ContainsThen(head + " Chrome/", v, p);
        ContainsThen(head + " Chrome/" + v, " Safari/537.36", p);
      } else if name == JString("Edge") {
        ContainsThen(head, " Edg/", p);
        ContainsThen(head + " Edg/", v, p);
      } else {
        ContainsThen(head, " ", p);
        ContainsThen(head + " ", Str(name), p);
        ContainsThen(head + " " + Str(name), "/", p);
        ContainsThen(head + " " + Str(name) + "/", v, p);
      }
    }
  }

  lemma FirefoxToken()
    ensures Contains(" Gecko/20100101 Firefox/", "Firefox")
  {
    ContainsAt(" Gecko/20100101 Firefox/", "Firefox", 16);
  }

  lemma ChromeToken(os: string, v: string)
    ensures Contains(WebKitHead(os, "537.36") + " Chrome/" + v + " Safari/537.36", "Chrome")
  {
    var head := WebKitHead(os, "537.36");
    ContainsAt(" Chrome/", "Chrome", 1);
    ContainsAfter(head, " Chrome/", "Chrome");
    ContainsThen(head + " Chrome/", v, "Chrome");
    ContainsThen(head + " Chrome/" + v, " Safari/537.36", "Chrome");
  }

  lemma FirefoxAgentToken(os: string, v: string)
    ensures Contains("Mozilla/5.0 " + Paren(os + "; rv:" + v) + " Gecko/20100101 Firefox/" + v, "Firefox")
  {
    var group := "Mozilla/5.0 " + Paren(os + "; rv:" + v);
    FirefoxToken();
    ContainsAfter(group, " Gecko/20100101 Firefox/", "Firefox");
    ContainsThen(group + " Gecko/20100101 Firefox/", v, "Firefox");
  }

  lemma SafariToken(os: string, v: string)
    ensures Contains(WebKitHead(os, "605.1.15") + " Version/" + v + " Safari/605.1.15", "Safari")
  {
    ContainsAt(" Safari/605.1.15", "Safari", 1);
    ContainsAfter(WebKitHead(os, "605.1.15") + " Version/" + v, " Safari/605.1.15", "Safari");
  }

  lemma EdgeToken(os: string, v: string)
    ensures Contains(WebKitHead(os, "537.36") + " Edg/" + v, "Edg")
  {
    var head := WebKitHead(os, "537.36");
    ContainsAt(" Edg/", "Edg", 1);
    ContainsAfter(head, " Edg/", "Edg");
    ContainsThen(head + " Edg/", v, "Edg");
  }

  /** The template of a known browser carries one of the browser patterns. */
  lemma KnownBrowserToken(name: Json, version: Json, os: string)
    requires KnownBrowser(name)
    ensures ContainsAny(UserAgent(name, version, os), BROWSER_PATTERNS)
  {
    var v := Str(version);
    if name == JString("Chrome") {
      ChromeToken(os, v);
      assert Contains(UserAgent(name, version, os), BROWSER_PATTERNS[0]);
    } else if name == JString("Firefox") {
      FirefoxAgentToken(os, v);
      assert Contains(UserAgent(name, version, os), BROWSER_PATTERNS[1]);
    } else if name == JString("Safari") {
      SafariToken(os, v);
      assert Contains(UserAgent(name, version, os), BROWSER_PATTERNS[2]);
    } else {
      EdgeToken(os, v);
      assert Contains(UserAgent(name, version, os), BROWSER_PATTERNS[3]);
    }
  }

  /**
   * For a known browser the prefix, length and browser-token checks always
   * pass, so the generated string is accepted exactly when its parentheses
   * balance and it carries an OS pattern.
   */
  lemma KnownBrowserCheck(name: Json, version: Json, os: string)
    requires KnownBrowser(name)
    ensures ValidUserAgent(UserAgent(name, version, os)) <==>
              Balanced(UserAgent(name, version, os)) && ContainsAny(UserAgent(name, version, os), OS_PATTERNS)
  {
    UserAgentPrefix(name, version, os);
    KnownBrowserToken(name, version, os);
  }

  /**
   * A known browser with an OS descriptor that carries an OS pattern and
   * balanced descriptor and version yields a string the check accepts.
   */
  lemma KnownTemplateValid(name: Json, version: Json, os: string)
    requires KnownBrowser(name)
    requires Balanced(os) && Balanced(Str(version))
    requires ContainsAny(os, OS_PATTERNS)
    ensures ValidUserAgent(UserAgent(name, version, os))
  {
    KnownBrowserCheck(name, version, os);
    UserAgentParens(name, version, os, '(');
    UserAgentParens(name, version, os, ')');
    var k :| 0 <= k < |OS_PATTERNS| && Contains(os, OS_PATTERNS[k]);
    UserAgentKeepsOs(name, version, os, OS_PATTERNS[k]);
  }

  /** A character of none of the fixed pieces or arguments does not occur in the WebKit text. */
  lemma WebKitHeadChars(os: string, build: string, ch: char)
    requires ch !in os && ch !in build
    requires ch !in "Mozilla/5.0 ()" && ch !in " AppleWebKit/" && ch !in "KHTML, like Gecko"
    ensures ch !in WebKitHead(os, build)
  {
  }

  lemma WebKitHeadNoBrowserLetter(os: string, build: string)
    requires NoBrowserLetter(os) && NoBrowserLetter(build)
    ensures NoBrowserLetter(WebKitHead(os, build))
  {
    WebKitHeadChars(os, build, 'C');
    WebKitHeadChars(os, build, 'F');
    WebKitHeadChars(os, build, 'S');
    WebKitHeadChars(os, build, 'E');
  }

  lemma FallbackNoBrowserLetter(os: string, n: string, v: string)
    requires NoBrowserLetter(os) && NoBrowserLetter(n) && NoBrowserLetter(v)
    ensures NoBrowserLetter(WebKitHead(os, "537.36") + " " + n + "/" + v)
  {
    WebKitHeadNoBrowserLetter(os, "537.36");
  }

  /**
   * The fallback template has no browser pattern of its own: when neither
   * the name, the version nor the descriptor holds a 'C', 'F', 'S' or 'E',
   * the string is rejected.
   */
  lemma FallbackRejected(name: Json, version: Json, os: string)
    requires !KnownBrowser(name)
    requires NoBrowserLetter(Str(name)) && NoBrowserLetter(Str(version)) && NoBrowserLetter(os)
    ensures !ValidUserAgent(UserAgent(name, version, os))
  {
    var n, v := Str(name), Str(version);
    FallbackNoBrowserLetter(os, n, v);
    NoBrowserToken(WebKitHead(os, "537.36") + " " + n + "/" + v);
  }

  lemma WebKitHeadNoOsLetter(os: string, build: string)
    requires NoOsLetter(os) && NoOsLetter(build)
    ensures NoOsLetter(WebKitHead(os, build))
  {
    WebKitHeadChars(os, build, 'w');
    WebKitHeadChars(os, build, 'X');
    WebKitHeadChars(os, build, 'u');
  }

  lemma NoOsLetterJoin(a: string, b: string)
    requires NoOsLetter(a) && NoOsLetter(b)
    ensures NoOsLetter(a + b)
  {
  }

  lemma FirefoxTailNoOsLetter()
    ensures NoOsLetter(" Gecko/20100101 Firefox/")
  {
  }

  lemma FirefoxNoOsLetter(os: string, v: string)
    requires NoOsLetter(os) && NoOsLetter(v)
    ensures NoOsLetter("Mozilla/5.0 " + Paren(os + "; rv:" + v) + " Gecko/20100101 Firefox/" + v)
  {
    NoOsLetterJoin(os, "; rv:");
    NoOsLetterJoin(os + "; rv:", v);
    NoOsLetterJoin("(", os + "; rv:" + v);
    NoOsLetterJoin("(" + (os + "; rv:" + v), ")");
    NoOsLetterJoin("Mozilla/5.0 ", Paren(os + "; rv:" + v));
    var group := "Mozilla/5.0 " + Paren(os + "; rv:" + v);
    FirefoxTailNoOsLetter();
    NoOsLetterJoin(group, " Gecko/20100101 Firefox/");
    NoOsLetterJoin(group + " Gecko/20100101 Firefox/", v);
  }

  lemma SafariNoOsLetter(os: string, v: string)
    requires NoOsLetter(os) && NoOsLetter(v)
    ensures NoOsLetter(WebKitHead(os, "605.1.15") + " Version/" + v + " Safari/605.1.15")
  {
    var head := WebKitHead(os, "605.1.15");
    WebKitHeadNoOsLetter(os, "605.1.15");
    NoOsLetterJoin(head, " Version/");
    NoOsLetterJoin(head + " Version/", v);
    NoOsLetterJoin(head + " Version/" + v, " Safari/605.1.15");
  }

  lemma ChromeNoOsLetter(os: string, v: string)
    requires NoOsLetter(os) && NoOsLetter(v)
    ensures NoOsLetter(WebKitHead(os, "537.36") + " Chrome/" + v + " Safari/537.36")
  {
    var head := WebKitHead(os, "537.36");
    WebKitHeadNoOsLetter(os, "537.36");
    NoOsLetterJoin(head, " Chrome/");
    NoOsLetterJoin(head + " Chrome/", v);
    NoOsLetterJoin(head + " Chrome/" + v, " Safari/537.36");
  }

  lemma EdgeNoOsLetter(os: string, v: string)
    requires NoOsLetter(os) && NoOsLetter(v)
    ensures NoOsLetter(WebKitHead(os, "537.36") + " Edg/" + v)
  {
    var head := WebKitHead(os, "537.36");
    WebKitHeadNoOsLetter(os, "537.36");
    NoOsLetterJoin(head, " Edg/");
    NoOsLetterJoin(head + " Edg/", v);
  }

  lemma OtherNoOsLetter(os: string, n: string, v: string)
    requires NoOsLetter(os) && NoOsLetter(n) && NoOsLetter(v)
    ensures NoOsLetter(WebKitHead(os, "537.36") + " " + n + "/" + v)
  {
    var head := WebKitHead(os, "537.36");
    WebKitHeadNoOsLetter(os, "537.36");
    NoOsLetterJoin(head, " ");
    NoOsLetterJoin(head + " ", n);
    NoOsLetterJoin(head + " " + n, "/");
    NoOsLetterJoin(head + " " + n + "/", v);
  }

  /** No template adds a 'w', 'X' or 'u' of its own. */
  lemma UserAgentNoOsLetter(name: Json, version: Json, os: string)
    requires NoOsLetter(Str(name)) && NoOsLetter(Str(version)) && NoOsLetter(os)
    ensures NoOsLetter(UserAgent(name, version, os))
  {
    var v := Str(version);
    if name == JString("Chrome") {
      ChromeNoOsLetter(os, v);
    } else if name == JString("Firefox") {
      FirefoxNoOsLetter(os, v);
    } else if name == JString("Safari") {
      SafariNoOsLetter(os, v);
    } else if name == JString("Edge") {
      EdgeNoOsLetter(os, v);
    } else {
      OtherNoOsLetter(os, Str(name), v);
    }
  }

  /**
   * No template has an OS pattern of its own: when neither the name, the
   * version nor the descriptor holds a 'w', 'X' or 'u', the string is rejected.
   */
  lemma OsPatternMissing(name: Json, version: Json, os: string)
    requires NoOsLetter(Str(name)) && NoOsLetter(Str(version)) && NoOsLetter(os)
    ensures !ValidUserAgent(UserAgent(name, version, os))
  {
    UserAgentNoOsLetter(name, version, os);
    NoOsToken(UserAgent(name, version, os));
  }

  /** In a validated catalog every browser entry is a dict that survives the browser filter. */
  lemma ValidatedBrowsers(data: Json)
    requires CatalogOk(data)
    ensures Truthy(data) && Truthy(Get(data.fields, "browsers")) && Get(data.fields, "browsers").JArray?
    ensures AllObjects(Get(data.fields, "browsers").items)
    ensures Filter(Get(data.fields, "browsers").items, FeasibleBrowser) == Get(data.fields, "browsers").items
    ensures forall b :: b in Get(data.fields, "browsers").items ==> BrowserOk(b)
  {
    var browsers := Get(data.fields, "browsers");
    assert Browsers(data) == browsers.items;
    forall k | 0 <= k < |browsers.items| ensures FeasibleBrowser(browsers.items[k]) {
      BrowserOkFeasible(browsers.items[k]);
    }
  }

  /** A well-formed browser entry passes the browser filter. */
  lemma BrowserOkFeasible(b: Json)
    requires BrowserOk(b)
    ensures FeasibleBrowser(b)
  {
    assert Truthy(Get(b.fields, "os"));
  }

  /** In a validated browser entry every OS entry is a dict that survives the OS filter. */
  lemma ValidatedOsEntries(b: Json)
    requires BrowserOk(b)
    ensures Get(b.fields, "os").JArray? && AllObjects(Get(b.fields, "os").items)
    ensures Filter(Get(b.fields, "os").items, FeasibleOs) == Get(b.fields, "os").items
    ensures forall o :: o in Get(b.fields, "os").items ==> OsEntryOk(o)
  {
    assert Get(b.fields, "os").items == OsEntries(b);
  }

  /**
   * A catalog that passes validate_json_structure gives the selection steps
   * nothing to trip on: for every draw they reach an OS version, so
   * generate_user_agent raises neither EmptyDataError nor an unexpected
   * exception on it.
   */
  lemma ValidatedCatalogSelects(data: Json, c: Choice)
    requires CatalogOk(data)
    ensures Select(data, c).Ok?
  {
    ValidatedBrowsers(data);
    var browsers := Get(data.fields, "browsers");
    var browser := Pick(browsers.items, c.browser);
    ValidatedOsEntries(browser);
  }

  /** The OS names get_os_string has a descriptor of its own for. */
  predicate KnownOsName(name: Json) {
    name.JString? && KnownOs(name.s)
  }

  /**
   * A validated catalog in which every browser name has a template of its
   * own, every OS name has a descriptor of its own, every OS version is a
   * string, and no version unbalances the parentheses.
   */
  predicate KnownCatalog(data: Json) {
    && CatalogOk(data)
    && forall b :: b in Get(data.fields, "browsers").items ==>
         && BrowserOk(b)
         && KnownBrowser(Get(b.fields, "name"))
         && (forall v :: v in Get(b.fields, "versions").items ==> Balanced(Str(v)))
         && forall o :: o in Get(b.fields, "os").items ==>
              && OsEntryOk(o)
              && KnownOsName(Get(o.fields, "name"))
              && forall w :: w in Get(o.fields, "versions").items ==> w.JString? && Balanced(w.s)
  }

  /**
   * A known browser drawn with a known OS, a string OS version and versions
   * that keep the parentheses balanced always produces its template filled
   * in: the check accepts it.
   */
  lemma KnownCombinationSucceeds(data: Json, c: Choice)
    requires Select(data, c).Ok?
    requires KnownBrowser(Select(data, c).value.name) && KnownOsName(Select(data, c).value.osName)
    requires Select(data, c).value.osVersion.JString? && Balanced(Select(data, c).value.osVersion.s)
    requires Balanced(Str(Select(data, c).value.version))
    ensures var sel := Select(data, c).value;
            GenerateUserAgent(data, c) == Ok(UserAgent(sel.name, sel.version, OsString(sel.osName.s, sel.osVersion.s)))
  {
    var sel := Select(data, c).value;
    var os := OsString(sel.osName.s, sel.osVersion.s);
    OsStringParens(sel.osName.s, sel.osVersion.s, '(');
    OsStringParens(sel.osName.s, sel.osVersion.s, ')');
    KnownOsHasOsPattern(sel.osName.s, sel.osVersion.s);
    KnownTemplateValid(sel.name, sel.version, os);
  }

  /**
   * The promise the generator is meant to keep, for the catalogs it holds
   * for: on a known catalog every draw yields a string the check accepts.
   */
  lemma KnownCatalogGenerates(data: Json, c: Choice)
    requires KnownCatalog(data)
    ensures GenerateUserAgent(data, c).Ok?
  {
    ValidatedCatalogSelects(data, c);
    KnownCombinationSucceeds(data, c);
  }

  /**
   * The four EmptyDataError cases, each exactly under its condition: no
   * usable document, an empty browser list, no browser that passes the
   * filter, and a drawn browser none of whose OS entries passes the OS filter.
   */
  lemma SelectEmptyData(data: Json, c: Choice)
    ensures Select(data, c) == Err(EmptyData(NoData)) <==>
              !Truthy(data) || !data.JObject? || !HasKey(data.fields, "browsers")
    ensures Select(data, c) == Err(EmptyData(NoBrowserData)) <==>
              data.JObject? && data.fields != [] && HasKey(data.fields, "browsers") && !Truthy(Get(data.fields, "browsers"))
    ensures Select(data, c) == Err(EmptyData(NoFeasibleBrowser)) <==>
              && data.JObject? && HasKey(data.fields, "browsers")
              && var browsers := Get(data.fields, "browsers");
                 && browsers.JArray? && browsers.items != [] && AllObjects(browsers.items)
                 && forall b :: b in browsers.items ==> !FeasibleBrowser(b)
    ensures Select(data, c) == Err(EmptyData(NoFeasibleOs)) ==>
              && data.JObject? && Get(data.fields, "browsers").JArray?
              && exists b :: && b in Get(data.fields, "browsers").items && FeasibleBrowser(b)
                             && Get(b.fields, "os").JArray?
                             && forall o :: o in Get(b.fields, "os").items ==> !FeasibleOs(o)
    ensures Select(data, c) == Err(EmptyData(NoFeasibleOs)) <==> NoOsToDraw(data, c)
  {
    SelectNoFeasibleOs(data, c);
    if Select(data, c) == Err(EmptyData(NoFeasibleOs)) {
      var browsers := Get(data.fields, "browsers");
      var browser := Pick(Filter(browsers.items, FeasibleBrowser), c.browser);
      assert browser in browsers.items && FeasibleBrowser(browser);
    }
  }

  /**
   * The drawn browser has a name and a list of dicts for "os", none of
   * which has a non-empty versions list.
   */
  predicate NoOsToDraw(data: Json, c: Choice) {
    && data.JObject? && HasKey(data.fields, "browsers")
    && var browsers := Get(data.fields, "browsers");
       && browsers.JArray? && browsers.items != [] && AllObjects(browsers.items)
       && var feasible := Filter(browsers.items, FeasibleBrowser);
          && |feasible| > 0
          && var b := Pick(feasible, c.browser);
             && HasKey(b.fields, "name")
             && Get(b.fields, "os").JArray? && AllObjects(Get(b.fields, "os").items)
             && forall o :: o in Get(b.fields, "os").items ==> !FeasibleOs(o)
  }

  /** EmptyDataError for want of an OS entry occurs exactly when the drawn browser has no OS to draw. */
  lemma SelectNoFeasibleOs(data: Json, c: Choice)
    ensures Select(data, c) == Err(EmptyData(NoFeasibleOs)) <==> NoOsToDraw(data, c)
  {
    if NoOsToDraw(data, c) {
      NoOsToDrawSelects(data, c);
    }
    if Select(data, c) == Err(EmptyData(NoFeasibleOs)) {
      NoFeasibleOsDrawn(data, c);
    }
  }

  lemma NoOsToDrawSelects(data: Json, c: Choice)
    requires NoOsToDraw(data, c)
    ensures Select(data, c) == Err(EmptyData(NoFeasibleOs))
  {
    HasKeyIff(data.fields, "browsers");
    var browsers := Get(data.fields, "browsers");
    var b := Pick(Filter(browsers.items, FeasibleBrowser), c.browser);
    FilterEmpty(Get(b.fields, "os").items, FeasibleOs);
  }

  lemma NoFeasibleOsDrawn(data: Json, c: Choice)
    requires Select(data, c) == Err(EmptyData(NoFeasibleOs))
    ensures NoOsToDraw(data, c)
  {
    var browsers := Get(data.fields, "browsers");
    var b := Pick(Filter(browsers.items, FeasibleBrowser), c.browser);
    FilterEmpty(Get(b.fields, "os").items, FeasibleOs);
  }

  /** The comprehension comes out empty exactly when no element passes the test. */
  lemma FilterEmpty(s: seq<Json>, p: Json -> bool)
    ensures |Filter(s, p)| == 0 <==> forall x :: x in s ==> !p(x)
  {
    var r := Filter(s, p);
    if |r| > 0 {
      assert r[0] in r;
    }
  }

  /**
   * The KeyError, AttributeError or TypeError the selection steps raise:
   * a truthy "browsers" that is not a list of dicts, a drawn browser without
   * a name, an "os" value of the drawn browser that is not a list of dicts,
   * or a drawn OS entry without a name.
   */
  lemma SelectUnexpected(data: Json, c: Choice)
    ensures Select(data, c) == Err(UserAgentError(UnexpectedException)) <==>
              && data.JObject? && HasKey(data.fields, "browsers") && Truthy(Get(data.fields, "browsers"))
              && var browsers := Get(data.fields, "browsers");
                 || !browsers.JArray? || !AllObjects(browsers.items)
                 || var feasible := Filter(browsers.items, FeasibleBrowser);
                    && |feasible| > 0
                    && var b := Pick(feasible, c.browser);
                       || !HasKey(b.fields, "name")
                       || !Get(b.fields, "os").JArray? || !AllObjects(Get(b.fields, "os").items)
                       || var feasibleOs := Filter(Get(b.fields, "os").items, FeasibleOs);
                          && |feasibleOs| > 0
                          && !HasKey(Pick(feasibleOs, c.os).fields, "name")
  {
    if data.JObject? && HasKey(data.fields, "browsers") {
      HasKeyIff(data.fields, "browsers");
    }
  }

  /**
   * Once the draws have selected their entries, the outcome depends only on
   * the selection: the OS formatter's error, or the filled template, which
   * is returned when the check accepts it and reported otherwise.
   */
  lemma GenerateFromSelection(data: Json, c: Choice)
    requires Select(data, c).Ok?
    ensures var sel := Select(data, c).value;
            !sel.osName.JString? || !sel.osVersion.JString? ==>
              GenerateUserAgent(data, c) == Err(UserAgentError(OsStringNotText))
    ensures var sel := Select(data, c).value;
            sel.osName.JString? && sel.osVersion.JString? ==>
              var ua := UserAgent(sel.name, sel.version, OsString(sel.osName.s, sel.osVersion.s));
              GenerateUserAgent(data, c) == if ValidUserAgent(ua) then Ok(ua) else Err(InvalidUserAgent(ua))
  {
  }

  /** A catalog of one browser with one version and one OS with one version. */
  function SingleCatalog(browser: string, version: string, os: string, osVersion: string): Json {
    var osEntry := JObject([("name", JString(os)), ("versions", JArray([JString(osVersion)]))]);
    JObject([("browsers", JArray([
      JObject([("name", JString(browser)), ("versions", JArray([JString(version)])), ("os", JArray([osEntry]))])
    ]))])
  }

  /** Such a catalog is well formed, and every draw selects its only entries. */
  lemma SingleCatalogSelects(browser: string, version: string, os: string, osVersion: string, c: Choice)
    ensures CatalogOk(SingleCatalog(browser, version, os, osVersion))
    ensures Select(SingleCatalog(browser, version, os, osVersion), c).Ok?
    ensures var sel := Select(SingleCatalog(browser, version, os, osVersion), c).value;
            && sel.name == JString(browser) && sel.version == JString(version)
            && sel.osName == JString(os) && sel.osVersion == JString(osVersion)
  {
    var data := SingleCatalog(browser, version, os, osVersion);
    var b := Get(data.fields, "browsers").items[0];
    var o := Get(b.fields, "os").items[0];
    GetLast(data.fields, "browsers", 0);
    GetLast(b.fields, "os", 2);
    GetLast(o.fields, "name", 0);
    GetLast(o.fields, "versions", 1);
    assert OsEntryOk(o);
    assert OsEntries(b) == [o];
    GetLast(b.fields, "name", 0);
    GetLast(b.fields, "versions", 1);
    assert BrowserOk(b);
    assert Browsers(data) == [b];
    ValidatedCatalogSelects(data, c);
  }

  lemma SelectionRejected(data: Json, c: Choice, os: string)
    requires Select(data, c).Ok?
    requires var sel := Select(data, c).value;
             sel.osName.JString? && sel.osVersion.JString? && os == OsString(sel.osName.s, sel.osVersion.s)
    requires !ValidUserAgent(UserAgent(Select(data, c).value.name, Select(data, c).value.version, os))
    ensures GenerateUserAgent(data, c).Err? && GenerateUserAgent(data, c).error.InvalidUserAgent?
  {
    GenerateFromSelection(data, c);
  }

  lemma WindowsNoBrowserLetter(v: string)
    requires NoBrowserLetter(v)
    ensures NoBrowserLetter(OsString("Windows", v))
  {
    assert OsString("Windows", v) == "Windows NT " + v + "; Win64; x64";
  }

  lemma FallbackOsNoOsLetter(name: string, v: string)
    requires !KnownOs(name)
    requires NoOsLetter(name) && NoOsLetter(v)
    ensures NoOsLetter(OsString(name, v))
  {
    assert OsString(name, v) == name + " " + v;
  }

  /**
   * A well-formed catalog is not enough: a browser without a template of
   * its own, on Windows, is rejected by the check on every draw, whatever
   * its name and the versions, as long as they hold no 'C', 'F', 'S' or 'E'
   * (as with Opera 100 on Windows 10.0).
   */
  lemma UnknownBrowserRejected(browser: string, version: string, osVersion: string, c: Choice)
    requires !KnownBrowser(JString(browser))
    requires NoBrowserLetter(browser) && NoBrowserLetter(version) && NoBrowserLetter(osVersion)
    ensures CatalogOk(SingleCatalog(browser, version, "Windows", osVersion))
    ensures GenerateUserAgent(SingleCatalog(browser, version, "Windows", osVersion), c).Err?
    ensures GenerateUserAgent(SingleCatalog(browser, version, "Windows", osVersion), c).error.InvalidUserAgent?
  {
    SingleCatalogSelects(browser, version, "Windows", osVersion, c);
    var os := OsString("Windows", osVersion);
    WindowsNoBrowserLetter(osVersion);
    FallbackRejected(JString(browser), JString(version), os);
    SelectionRejected(SingleCatalog(browser, version, "Windows", osVersion), c, os);
  }

  /**
   * Nor is a known browser enough: on an OS without a descriptor of its own
   * it is rejected by the check on every draw whenever the OS name and the
   * versions hold no 'w', 'X' or 'u' (as with Chrome 116.0 on Android 13).
   */
  lemma UnknownOsRejected(browser: string, version: string, os: string, osVersion: string, c: Choice)
    requires KnownBrowser(JString(browser)) && !KnownOs(os)
    requires NoOsLetter(browser) && NoOsLetter(version) && NoOsLetter(os) && NoOsLetter(osVersion)
    ensures CatalogOk(SingleCatalog(browser, version, os, osVersion))
    ensures GenerateUserAgent(SingleCatalog(browser, version, os, osVersion), c).Err?
    ensures GenerateUserAgent(SingleCatalog(browser, version, os, osVersion), c).error.InvalidUserAgent?
  {
    SingleCatalogSelects(browser, version, os, osVersion, c);
    var descriptor := OsString(os, osVersion);
    FallbackOsNoOsLetter(os, osVersion);
    OsPatternMissing(JString(browser), JString(version), descriptor);
    SelectionRejected(SingleCatalog(browser, version, os, osVersion), c, descriptor);
  }

  /**
   * Chrome on Windows yields the Chrome template around
   * "Windows NT <version>; Win64; x64" on every draw.
   */
  lemma ChromeOnWindows(version: string, osVersion: string, c: Choice)
    requires Balanced(version) && Balanced(osVersion)
    ensures GenerateUserAgent(SingleCatalog("Chrome", version, "Windows", osVersion), c) ==
              Ok(UserAgent(JString("Chrome"), JString(version), "Windows NT " + osVersion + "; Win64; x64"))
  {
    var data := SingleCatalog("Chrome", version, "Windows", osVersion);
    SingleCatalogSelects("Chrome", version, "Windows", osVersion, c);
    KnownCombinationSucceeds(data, c);
  }

  /** A catalog of one browser whose one OS entry has an empty versions list. */
  function EmptyOsCatalog(browser: string, version: string, os: string): Json {
    var osEntry := JObject([("name", JString(os)), ("versions", JArray([]))]);
    JObject([("browsers", JArray([
      JObject([("name", JString(browser)), ("versions", JArray([JString(version)])), ("os", JArray([osEntry]))])
    ]))])
  }

  /** The lookups the validator and the generator make in that catalog. */
  lemma EmptyOsLookups(browser: string, version: string, os: string)
    ensures var data := EmptyOsCatalog(browser, version, os);
            var b := data.fields[0].1.items[0];
            var o := b.fields[2].1.items[0];
            && HasKey(data.fields, "browsers") && Get(data.fields, "browsers") == JArray([b])
            && HasKey(b.fields, "name") && HasKey(b.fields, "versions") && HasKey(b.fields, "os")
            && Get(b.fields, "name") == JString(browser)
            && Get(b.fields, "versions") == JArray([JString(version)])
            && Get(b.fields, "os") == JArray([o])
            && HasKey(o.fields, "name") && HasKey(o.fields, "versions")
            && Get(o.fields, "versions") == JArray([])
  {
    var data := EmptyOsCatalog(browser, version, os);
    var b := data.fields[0].1.items[0];
    var o := b.fields[2].1.items[0];
    GetLast(data.fields, "browsers", 0);
    GetLast(b.fields, "name", 0);
    GetLast(b.fields, "versions", 1);
    GetLast(b.fields, "os", 2);
    GetLast(o.fields, "name", 0);
    GetLast(o.fields, "versions", 1);
  }

  /** The validator reports the empty versions list of OS entry 0 of browser 0. */
  lemma EmptyOsVersionsReported(browser: string, version: string, os: string)
    ensures ValidateJsonStructure(EmptyOsCatalog(browser, version, os)) == Fail(InvalidJsonFormat(OsVersionsInvalid(0, 0)))
  {
    var data := EmptyOsCatalog(browser, version, os);
    var b := data.fields[0].1.items[0];
    var o := b.fields[2].1.items[0];
    EmptyOsLookups(browser, version, os);
    assert CheckOsEntry(o, 0, 0) == Some(OsVersionsInvalid(0, 0));
    assert OsEntries(b) == [o];
    assert CheckBrowser(b, 0) == Some(OsVersionsInvalid(0, 0));
    assert Browsers(data) == [b];
  }

  /**
   * The generator only filters such an entry out: it finds no OS to draw
   * and raises EmptyDataError, on every draw.
   */
  lemma EmptyOsVersionsFiltered(browser: string, version: string, os: string, c: Choice)
    ensures Select(EmptyOsCatalog(browser, version, os), c) == Err(EmptyData(NoFeasibleOs))
    ensures GenerateUserAgent(EmptyOsCatalog(browser, version, os), c) == Err(EmptyData(NoFeasibleOs))
  {
    var data := EmptyOsCatalog(browser, version, os);
    var b := data.fields[0].1.items[0];
    var o := b.fields[2].1.items[0];
    EmptyOsLookups(browser, version, os);
    assert Filter([b], FeasibleBrowser) == [b];
    assert Filter([o], FeasibleOs) == [];
  }
}
