/**
 * The exception hierarchy rooted at UserAgentError, as a tagged value.
 * Each kind carries what identifies the failure (indices, the rejected
 * string), not the text of the message.
 */
module Errors {

  /** The three fields every browser entry must have, in the order they are checked. */
  datatype Field = Name | Versions | Os

  /** What the catalog validator found wrong, with the offending indices. */
  datatype Fault =
    | NotAnObject
    | NoBrowsersKey
    | BrowsersNotNonEmptyList
    | BrowserNotObject(browser: nat)
    | BrowserMissingField(browser: nat, field: Field)
    | BrowserVersionsInvalid(browser: nat)
    | BrowserOsInvalid(browser: nat)
    | OsNotObject(browser: nat, os: nat)
    | OsMissingName(browser: nat, os: nat)
    | OsVersionsInvalid(browser: nat, os: nat)
  {
    /** The fault is about one browser entry (it carries a browser index). */
    predicate IsPerBrowser() {
      !(NotAnObject? || NoBrowsersKey? || BrowsersNotNonEmptyList?)
    }

    /** The fault is about one OS entry of a browser (it carries an OS index too). */
    predicate IsPerOs() {
      OsNotObject? || OsMissingName? || OsVersionsInvalid?
    }
  }

  /** Why the generator found nothing to choose from. */
  datatype EmptyReason =
    | NoData             // not a dict, empty, or no "browsers" key
    | NoBrowserData      // "browsers" is falsy
    | NoFeasibleBrowser  // no browser has OS data and a non-empty versions list
    | NoFeasibleOs       // the chosen browser has no OS entry with versions

  /** The cause of a plain UserAgentError. */
  datatype Cause =
    | OsStringNotText      // the OS name or version handed to the formatter is not a string
    | UnexpectedException  // a KeyError, AttributeError or TypeError raised inside the generator

  datatype Error =
    | InvalidJsonFormat(fault: Fault)
    | EmptyData(reason: EmptyReason)
    | InvalidUserAgent(agent: string)
    | UserAgentError(cause: Cause)
}
