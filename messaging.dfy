/**
 * Runtime messaging between the extension pages and the background worker,
 * as seen by the `sendMessageWithTimeout` helper that the popup and the
 * options page each define: the request shape, the reply shape, and the
 * message of the Error a handler throws when the reply is not a success.
 */
module Messaging {

  import opened Wrappers
  import opened Strings

  /** `{action, tabId}`; the options page's requests carry no `tabId`. */
  datatype Request = Request(action: string, tabId: Option<nat>)

  /** `{success, data, error}`; an absent `error` is the empty string. */
  datatype Response<T> = Response(success: bool, data: T, error: string)

  /**
   * How the promise of `sendMessageWithTimeout` settles: with the callback's
   * response (possibly `undefined`), with the timer's rejection, or with
   * `chrome.runtime.lastError`.
   */
  datatype Delivery<T> = Answered(response: Option<Response<T>>) | TimedOut | PortError(message: string)

  /** The timer's rejection message. */
  function TimeoutMessage(ms: nat): (m: string)
    ensures StartsWith(m, "Message timeout after ")
    ensures EndsWith(m, "ms")
    ensures |m| >= 24 && m[22..|m| - 2] == NatToString(ms)
  {
    "Message timeout after " + NatToString(ms) + "ms"
  }

  /**
   * `None` when the handler proceeds with `response.data` (`response &&
   * response.success`); otherwise the message of the Error it ends up
   * catching: the timeout, the port error, or `response?.error || fallback`.
   */
  function Failure<T>(d: Delivery<T>, timeoutMs: nat, fallback: string): (r: Option<string>)
    ensures r.None? <==> d.Answered? && d.response.Some? && d.response.value.success
    ensures d.TimedOut? ==> r == Some(TimeoutMessage(timeoutMs))
    ensures d.PortError? ==> r == Some(d.message)
    ensures d.Answered? && d.response.None? ==> r == Some(fallback)
    ensures d.Answered? && d.response.Some? && !d.response.value.success ==>
      r == Some(if d.response.value.error != "" then d.response.value.error else fallback)
    ensures r.Some? && d.Answered? ==> r.value != "" || fallback == ""
  {
    match d
    case TimedOut => Some(TimeoutMessage(timeoutMs))
    case PortError(m) => Some(m)
    case Answered(None) => Some(fallback)
    case Answered(Some(resp)) =>
      if resp.success then None
      else Some(if resp.error != "" then resp.error else fallback)
  }

  /** A timed-out request is recognised by the handlers' `includes('timeout')` test. */
  lemma TimeoutMentionsTimeout(ms: nat)
    ensures Contains(TimeoutMessage(ms), "timeout")
  {
    var m := TimeoutMessage(ms);
    var head := "Message timeout after ";
    assert m[..|head|] == head;
    assert m[8..15] == head[8..15] == "timeout";
    ContainsAt(m, "timeout", 8);
  }

  /** A timed-out request is never mistaken for the "No suspended tabs" failure. */
  lemma TimeoutNotNoSuspendedTabs(ms: nat)
    ensures !Contains(TimeoutMessage(ms), "No suspended tabs")
  {
    var m := TimeoutMessage(ms);
    var head, digits := "Message timeout after ", NatToString(ms);
    assert forall i :: 0 <= i < |head| ==> head[i] != 'N';
    assert forall i :: 0 <= i < |m| ==> m[i] != 'N' by {
      forall i | 0 <= i < |m| ensures m[i] != 'N' {
        if i < |head| {
          assert m[i] == head[i];
        } else if i < |head| + |digits| {
          assert m[i] == digits[i - |head|];
        } else {
          assert m[i] == "ms"[i - |head| - |digits|];
        }
      }
    }
    MissingCharNotContained(m, "No suspended tabs", 0);
  }
}
