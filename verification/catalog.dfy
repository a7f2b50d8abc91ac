/**
 * The catalog validator: it walks a parsed document top-down and reports
 * the first structural violation as an InvalidJSONFormatError.
 *
 * The shape it accepts is also stated declaratively (CatalogOk, BrowserOk,
 * OsEntryOk); the validator's contracts tie the two together and say which
 * violation is reported when several are present.
 */
module Catalog {
  import opened Wrappers
  import opened Json
  import opened Errors

  /** An OS entry: an object with a name and a non-empty versions list. */
  predicate OsEntryOk(o: Json) {
    && o.JObject?
    && HasKey(o.fields, "name")
    && HasKey(o.fields, "versions")
    && IsNonEmptyArray(Get(o.fields, "versions"))
  }

  /** The OS entries of a browser object, or none when "os" is not a list. */
  function OsEntries(b: Json): seq<Json>
    requires b.JObject?
  {
    var os := Get(b.fields, "os");
    if os.JArray? then os.items else []
  }

  /**
   * A browser entry: an object with name, versions and os, non-empty
   * versions and os lists, and every OS entry well formed.
   */
  predicate BrowserOk(b: Json) {
    && b.JObject?
    && HasKey(b.fields, "name")
    && HasKey(b.fields, "versions")
    && HasKey(b.fields, "os")
    && IsNonEmptyArray(Get(b.fields, "versions"))
    && IsNonEmptyArray(Get(b.fields, "os"))
    && forall j :: 0 <= j < |OsEntries(b)| ==> OsEntryOk(OsEntries(b)[j])
  }

  /** The top-level checks: an object whose "browsers" is a non-empty list. */
  predicate TopLevelOk(data: Json) {
    && data.JObject?
    && HasKey(data.fields, "browsers")
    && IsNonEmptyArray(Get(data.fields, "browsers"))
  }

  function Browsers(data: Json): seq<Json>
    requires TopLevelOk(data)
  {
    Get(data.fields, "browsers").items
  }

  /** A catalog the loader accepts. */
  predicate CatalogOk(data: Json) {
    TopLevelOk(data) && forall i :: 0 <= i < |Browsers(data)| ==> BrowserOk(Browsers(data)[i])
  }

  /** The checks applied to OS entry `j` of browser `i`, in source order. */
  function CheckOsEntry(o: Json, i: nat, j: nat): (r: Option<Fault>)
    ensures r.None? <==> OsEntryOk(o)
    ensures r.Some? ==> r.value.IsPerOs() && r.value.browser == i && r.value.os == j
  {
    if !o.JObject? then Some(OsNotObject(i, j))
    else if !HasKey(o.fields, "name") then Some(OsMissingName(i, j))
    else if !HasKey(o.fields, "versions") || !IsNonEmptyArray(Get(o.fields, "versions")) then
      Some(OsVersionsInvalid(i, j))
    else None
  }

  /** The loop over the OS entries of browser `i`, from entry `j` on: the first failure. */
  function CheckOsEntries(os: seq<Json>, i: nat, j: nat): (r: Option<Fault>)
    requires j <= |os|
    ensures r.None? <==> forall k :: j <= k < |os| ==> OsEntryOk(os[k])
    ensures r.Some? ==>
              exists k :: && j <= k < |os|
                          && (forall m :: j <= m < k ==> OsEntryOk(os[m]))
                          && r == CheckOsEntry(os[k], i, k)
    decreases |os| - j
  {
    if j == |os| then None
    else
      var here := CheckOsEntry(os[j], i, j);
      if here.Some? then here else CheckOsEntries(os, i, j + 1)
  }

  /** The checks applied to browser entry `i`, in source order. */
  function CheckBrowser(b: Json, i: nat): (r: Option<Fault>)
    ensures r.None? <==> BrowserOk(b)
    ensures r.Some? ==> r.value.IsPerBrowser() && r.value.browser == i
  {
    if !b.JObject? then Some(BrowserNotObject(i))
    else if !HasKey(b.fields, "name") then Some(BrowserMissingField(i, Name))
    else if !HasKey(b.fields, "versions") then Some(BrowserMissingField(i, Versions))
    else if !HasKey(b.fields, "os") then Some(BrowserMissingField(i, Os))
    else if !IsNonEmptyArray(Get(b.fields, "versions")) then Some(BrowserVersionsInvalid(i))
    else if !IsNonEmptyArray(Get(b.fields, "os")) then Some(BrowserOsInvalid(i))
    else CheckOsEntries(OsEntries(b), i, 0)
  }

  /** The loop over the browsers, from entry `i` on: the first failure (see CheckBrowsersFirst). */
  function CheckBrowsers(browsers: seq<Json>, i: nat): (r: Option<Fault>)
    requires i <= |browsers|
    ensures r.None? <==> forall k :: i <= k < |browsers| ==> BrowserOk(browsers[k])
    decreases |browsers| - i
  {
    if i == |browsers| then None
    else
      var here := CheckBrowser(browsers[i], i);
      if here.Some? then here else CheckBrowsers(browsers, i + 1)
  }

  /** The fault CheckBrowsers reports is that of the first browser that is not well formed. */
  lemma {:induction false} CheckBrowsersFirst(browsers: seq<Json>, i: nat)
    requires i <= |browsers|
    ensures CheckBrowsers(browsers, i).Some? ==>
              exists k :: && i <= k < |browsers|
                          && (forall m :: i <= m < k ==> BrowserOk(browsers[m]))
                          && CheckBrowsers(browsers, i) == CheckBrowser(browsers[k], k)
    decreases |browsers| - i
  {
    if i < |browsers| {
      if CheckBrowser(browsers[i], i).Some? {
        assert CheckBrowsers(browsers, i) == CheckBrowser(browsers[i], i);
      } else {
        CheckBrowsersFirst(browsers, i + 1);
        if CheckBrowsers(browsers, i).Some? {
          var k :| && i + 1 <= k < |browsers|
                   && (forall m :: i + 1 <= m < k ==> BrowserOk(browsers[m]))
                   && CheckBrowsers(browsers, i + 1) == CheckBrowser(browsers[k], k);
          assert BrowserOk(browsers[i]);
          assert forall m :: i <= m < k ==> BrowserOk(browsers[m]);
        }
      }
    }
  }

  /**
   * validate_json_structure: passes exactly on a well-formed catalog;
   * otherwise reports the top-level fault, or else the fault of the first
   * browser that is not well formed.
   */
  function ValidateJsonStructure(data: Json): (r: Outcome<Error>)
    ensures r.Pass? <==> CatalogOk(data)
    ensures r.Fail? ==> r.error.InvalidJsonFormat?
    ensures r == Fail(InvalidJsonFormat(NotAnObject)) <==> !data.JObject?
    ensures r == Fail(InvalidJsonFormat(NoBrowsersKey)) <==>
              data.JObject? && !HasKey(data.fields, "browsers")
    ensures r == Fail(InvalidJsonFormat(BrowsersNotNonEmptyList)) <==>
              data.JObject? && HasKey(data.fields, "browsers") && !IsNonEmptyArray(Get(data.fields, "browsers"))
    ensures r.Fail? && r.error.fault.IsPerBrowser() ==>
              && TopLevelOk(data)
              && var i := r.error.fault.browser;
                 && i < |Browsers(data)|
                 && (forall k :: 0 <= k < i ==> BrowserOk(Browsers(data)[k]))
                 && !BrowserOk(Browsers(data)[i])
                 && Some(r.error.fault) == CheckBrowser(Browsers(data)[i], i)
  {
    if !data.JObject? then Fail(InvalidJsonFormat(NotAnObject))
    else if !HasKey(data.fields, "browsers") then Fail(InvalidJsonFormat(NoBrowsersKey))
    else if !IsNonEmptyArray(Get(data.fields, "browsers")) then Fail(InvalidJsonFormat(BrowsersNotNonEmptyList))
    else
      CheckBrowsersFirst(Browsers(data), 0);
      match CheckBrowsers(Browsers(data), 0)
      case None => Pass
      case Some(fault) => Fail(InvalidJsonFormat(fault))
  }

  /**
   * Within one OS entry the checks run in the order object, name, versions;
   * the fault reported is the first that applies.
   */
  lemma OsFaultOrder(o: Json, i: nat, j: nat)
    ensures CheckOsEntry(o, i, j) == Some(OsNotObject(i, j)) <==> !o.JObject?
    ensures CheckOsEntry(o, i, j) == Some(OsMissingName(i, j)) <==> o.JObject? && !HasKey(o.fields, "name")
    ensures CheckOsEntry(o, i, j) == Some(OsVersionsInvalid(i, j)) <==>
              o.JObject? && HasKey(o.fields, "name") && !IsNonEmptyArray(Get(o.fields, "versions"))
  {
  }

  /**
   * Within one browser entry the checks run in the order object, the fields
   * name, versions and os, a non-empty versions list, a non-empty os list,
   * then the OS entries by index; the fault reported is the first that applies.
   */
  lemma BrowserFaultOrder(b: Json, i: nat)
    ensures CheckBrowser(b, i) == Some(BrowserNotObject(i)) <==> !b.JObject?
    ensures CheckBrowser(b, i) == Some(BrowserMissingField(i, Name)) <==>
              b.JObject? && !HasKey(b.fields, "name")
    ensures CheckBrowser(b, i) == Some(BrowserMissingField(i, Versions)) <==>
              b.JObject? && HasKey(b.fields, "name") && !HasKey(b.fields, "versions")
    ensures CheckBrowser(b, i) == Some(BrowserMissingField(i, Os)) <==>
              b.JObject? && HasKey(b.fields, "name") && HasKey(b.fields, "versions") && !HasKey(b.fields, "os")
    ensures CheckBrowser(b, i) == Some(BrowserVersionsInvalid(i)) <==>
              && b.JObject? && HasKey(b.fields, "name") && HasKey(b.fields, "versions") && HasKey(b.fields, "os")
              && !IsNonEmptyArray(Get(b.fields, "versions"))
    ensures CheckBrowser(b, i) == Some(BrowserOsInvalid(i)) <==>
              && b.JObject? && HasKey(b.fields, "name") && HasKey(b.fields, "versions") && HasKey(b.fields, "os")
              && IsNonEmptyArray(Get(b.fields, "versions")) && !IsNonEmptyArray(Get(b.fields, "os"))
    ensures CheckBrowser(b, i).Some? && CheckBrowser(b, i).value.IsPerOs() ==>
              && b.JObject? && IsNonEmptyArray(Get(b.fields, "versions")) && IsNonEmptyArray(Get(b.fields, "os"))
              && var j := CheckBrowser(b, i).value.os;
                 && j < |OsEntries(b)|
                 && (forall m :: 0 <= m < j ==> OsEntryOk(OsEntries(b)[m]))
                 && !OsEntryOk(OsEntries(b)[j])
                 && CheckBrowser(b, i) == CheckOsEntry(OsEntries(b)[j], i, j)
  {
  }
}
