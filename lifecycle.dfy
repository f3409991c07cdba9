/**
 * Properties that span several parts of the extension: the popup and the
 * background worker agree on which pages can be suspended, a popup click
 * is acknowledged at once, a suspended tab comes back to its address, and
 * a record written while the placeholder page waits to look again is lost
 * to the page as written.
 */
module Lifecycle {

  import opened Wrappers
  import opened Strings
  import opened Records
  import opened Host
  import opened Messaging
  import Background
  import SuspendedPage
  import Popup

  /** The popup disables its button for exactly the pages the worker refuses. */
  lemma PopupAgreesWithBackground(url: string)
    ensures Popup.CannotSuspend(url) <==> !Background.Suspendable(url)
  {
  }

  /**
   * A click in the popup, delivered to the worker's listener: the reply is
   * the immediate acknowledgement, so the popup reports success and closes
   * whatever becomes of the suspension; the store changes at most at the
   * tab's own key.
   */
  method PopupClickAcknowledged(storage: LocalStorage, tabs: TabHost, view: Popup.View, extensionId: string,
                                hostname: Option<string>, writeRejected: bool, updateRejected: bool)
    requires view.listening
    modifies storage, tabs, view
    ensures view.sent == old(view.sent) + [Popup.RequestFor(view.tabId)]
    ensures view.closing && view.error.None? && view.buttonLabel == "Tab suspended!"
    ensures storage.entries == old(storage.entries)
      || (SuspendKey(view.tabId) in storage.entries
          && storage.entries == old(storage.entries)[SuspendKey(view.tabId) := storage.entries[SuspendKey(view.tabId)]])
  {
    var request := Popup.RequestFor(view.tabId);
    var reply := Background.OnMessage(storage, tabs, request, extensionId, hostname, writeRejected, updateRejected);
    view.Click(Answered(reply));
  }

  /**
   * Suspend a tab, open its placeholder page in that tab with the tab id the
   * worker put in the address, and click the page: the page shows the
   * stored title, the tab is back at its original address with every other
   * tab untouched, and the record is gone again.
   */
  method SuspendThenRestore(storage: LocalStorage, tabs: TabHost, tabId: nat, extensionId: string,
                            hostname: Option<string>)
    returns (page: SuspendedPage.Page)
    requires tabId in tabs.tabs && Background.Suspendable(tabs.tabs[tabId].url)
    requires tabs.tabs[tabId].favIconUrl != "" || hostname.Some?
    modifies storage, tabs
    ensures page.documentTitle == Background.StoredTitle(old(tabs.tabs[tabId])) + " - Suspended"
    ensures tabs.tabs == old(tabs.tabs)
    ensures storage.entries == old(storage.entries) - {SuspendKey(tabId)}
    ensures SuspendedKeys(storage.entries) == SuspendedKeys(old(storage.entries)) - {SuspendKey(tabId)}
  {
    ghost var before, tabsBefore := storage.entries, tabs.tabs;
    var outcome := Background.SuspendTab(storage, tabs, tabId, extensionId, hostname, false, false);
    assert outcome == Background.Suspended;
    ghost var stored := storage.entries;
    page := new SuspendedPage.Page(storage, tabs, tabId);
    page.Load(Some(NatToString(tabId)));
    assert page.storageKey == SuspendKey(tabId);
    page.Dispatch(SuspendedPage.BodyClick);
    assert storage.entries == stored - {SuspendKey(tabId)};
    assert storage.entries == before - {SuspendKey(tabId)};
    assert tabs.tabs == tabsBefore;
  }

  /**
   * The page's first lookup misses, the worker's write lands during the
   * pause, and the page looks again: as written the page shows the load
   * error and never becomes ready; with the intended retry it shows the
   * record.
   */
  method RecordWrittenDuringPause(tabId: nat, r: Record)
    returns (asWritten: SuspendedPage.Phase, asWrittenErrors: seq<string>,
             intended: SuspendedPage.Phase, intendedErrors: seq<string>)
    ensures asWritten == SuspendedPage.Failed && asWrittenErrors == [SuspendedPage.LoadError]
    ensures intended == SuspendedPage.Ready(r) && intendedErrors == []
  {
    var storage := new LocalStorage(map[]);
    var tabs := new TabHost(map[tabId := Tab("", "", "")]);
    var first := new SuspendedPage.Page(storage, tabs, tabId);
    var second := new SuspendedPage.Page(storage, tabs, tabId);
    first.Load(Some(NatToString(tabId)));
    second.Load(Some(NatToString(tabId)));
    storage.Set(SuspendKey(tabId), r);
    first.Retry();
    second.RetryIntended();
    asWritten, asWrittenErrors := first.phase, first.errors;
    intended, intendedErrors := second.phase, second.errors;
  }
}
