/**
 * The toolbar popup: it refuses to offer suspension for browser pages,
 * extension pages and placeholder pages, and otherwise sends a
 * `suspendTab` request for the active tab when the button is clicked,
 * reporting the outcome on the button and in an error line.
 */
module Popup {

  import opened Wrappers
  import opened Strings
  import opened Messaging

  /** The popup's own eligibility test: the button is disabled exactly for these pages. */
  function CannotSuspend(url: string): (b: bool)
    ensures b <==> (OccursAt(url, "chrome://", 0) || OccursAt(url, "chrome-extension://", 0)
                    || exists i :: OccursAt(url, "/suspended/suspended.html", i))
  {
    StartsWith(url, "chrome://")
    || StartsWith(url, "chrome-extension://")
    || Contains(url, "/suspended/suspended.html")
  }

  const AlreadySuspendedInfo: string := "This tab is already suspended"
  const SystemPageInfo: string := "System pages cannot be suspended"

  /** The explanation shown under a disabled button. */
  function InfoText(url: string): (t: string)
    ensures t == AlreadySuspendedInfo <==> Contains(url, "/suspended/suspended.html")
    ensures t == SystemPageInfo <==> !Contains(url, "/suspended/suspended.html")
  {
    if Contains(url, "/suspended/suspended.html") then AlreadySuspendedInfo else SystemPageInfo
  }

  /** The message the click handler sends for the active tab. */
  function RequestFor(tabId: nat): (r: Request)
    ensures r.action == "suspendTab" && r.tabId == Some(tabId)
  {
    Request("suspendTab", Some(tabId))
  }

  const TimeoutMs: nat := 10000
  const DefaultFailure: string := "Failed to suspend tab"
  const TimedOutText: string := "Request timed out. Please try again."
  const SystemPageText: string := "This page cannot be suspended."
  const AlreadySuspendedText: string := "Tab is already suspended."
  const FallbackText: string := "Could not suspend this tab. Please try again."

  /**
   * The error line for a failed click. The tests are tried in this order:
   * timeout, "system pages", "already suspended"; otherwise the message
   * itself, or a fallback when the message is empty.
   */
  function ErrorText(message: string): (t: string)
    ensures t != ""
    ensures Contains(message, "timeout") ==> t == TimedOutText
    ensures !Contains(message, "timeout") && Contains(message, "system pages") ==> t == SystemPageText
    ensures (!Contains(message, "timeout") && !Contains(message, "system pages")
             && Contains(message, "already suspended")) ==> t == AlreadySuspendedText
    ensures (!Contains(message, "timeout") && !Contains(message, "system pages")
             && !Contains(message, "already suspended")) ==> t == (if message != "" then message else FallbackText)
  {
    if Contains(message, "timeout") then TimedOutText
    else if Contains(message, "system pages") then SystemPageText
    else if Contains(message, "already suspended") then AlreadySuspendedText
    else if message != "" then message
    else FallbackText
  }

  /** A request that times out is always reported as a timeout, whatever else the text says. */
  lemma TimedOutClickReportsTimeout()
    ensures Failure<()>(TimedOut, TimeoutMs, DefaultFailure) == Some(TimeoutMessage(TimeoutMs))
    ensures ErrorText(TimeoutMessage(TimeoutMs)) == TimedOutText
  {
    TimeoutMentionsTimeout(TimeoutMs);
  }

  class View {
    var tabId: nat
    var buttonDisabled: bool
    var buttonLabel: string
    var buttonColor: string
    var info: string
    /** The `.error` line, if one is shown. */
    var error: Option<string>
    /** Whether the click handler is installed. */
    var listening: bool
    /** Whether the popup is about to close itself. */
    var closing: bool
    /** The requests sent to the background worker, in order. */
    var sent: seq<Request>

    constructor (initialLabel: string)
      ensures !buttonDisabled && buttonLabel == initialLabel && info == ""
      ensures error.None? && !listening && !closing && sent == []
    {
      tabId := 0;
      buttonDisabled := false;
      buttonLabel := initialLabel;
      buttonColor := "";
      info := "";
      error := None;
      listening := false;
      closing := false;
      sent := [];
    }

    /** Start-up for the active tab, whose id is `id` and address `url`. */
    method Init(id: nat, url: string)
      modifies this
      ensures tabId == id
      ensures listening <==> !CannotSuspend(url)
      ensures CannotSuspend(url) ==>
        buttonDisabled && buttonLabel == "Cannot suspend this tab" && info == InfoText(url)
      ensures !CannotSuspend(url) ==>
        buttonDisabled == old(buttonDisabled) && buttonLabel == old(buttonLabel) && info == old(info)
      ensures error == old(error) && closing == old(closing) && sent == old(sent)
    {
      tabId := id;
      if StartsWith(url, "chrome://")
        || StartsWith(url, "chrome-extension://")
        || Contains(url, "/suspended/suspended.html")
      {
        buttonDisabled := true;
        buttonLabel := "Cannot suspend this tab";
        if Contains(url, "/suspended/suspended.html") {
          info := AlreadySuspendedInfo;
        } else {
          info := SystemPageInfo;
        }
        listening := false;
        return;
      }
      listening := true;
    }

    /**
     * The click handler; `delivery` is how the request's reply arrives.
     * On success the popup closes; on failure the button is enabled again
     * and the error line explains why.
     */
    method Click(delivery: Delivery<()>)
      requires listening
      modifies this
      ensures sent == old(sent) + [RequestFor(tabId)]
      ensures tabId == old(tabId) && info == old(info) && listening
      ensures Failure(delivery, TimeoutMs, DefaultFailure).None? ==>
        && buttonDisabled && buttonLabel == "Tab suspended!" && buttonColor == "#0d652d"
        && closing && error.None?
      ensures Failure(delivery, TimeoutMs, DefaultFailure).Some? ==>
        && !buttonDisabled && buttonLabel == "Suspend Current Tab" && buttonColor == "#d93025"
        && closing == old(closing)
        && error == Some(ErrorText(Failure(delivery, TimeoutMs, DefaultFailure).value))
    {
      error := None;
      buttonDisabled := true;
      buttonLabel := "Suspending...";
      buttonColor := "#4285f4";
      sent := sent + [RequestFor(tabId)];
      var failure := Failure(delivery, TimeoutMs, DefaultFailure);
      if failure.None? {
        buttonLabel := "Tab suspended!";
        buttonColor := "#0d652d";
        closing := true;
      } else {
        buttonDisabled := false;
        buttonLabel := "Suspend Current Tab";
        buttonColor := "#d93025";
        error := Some(ErrorText(failure.value));
      }
    }
  }
}
