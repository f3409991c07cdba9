/**
 * The background worker: the `suspendTab` request handler and the
 * `suspendTab` operation itself, which stores a record for the tab under
 * `suspended_<tabId>` and then navigates the tab to the placeholder page.
 */
module Background {

  import opened Wrappers
  import opened Strings
  import opened Records
  import opened Host
  import opened Messaging

  /** The path of the placeholder page inside the extension. */
  const PlaceholderPath: string := "/suspended/suspended.html"

  /** The pages `suspendTab` agrees to suspend: not a browser page, not an extension page, not already a placeholder. */
  function Suspendable(url: string): (b: bool)
    ensures b <==> (!OccursAt(url, "chrome://", 0) && !OccursAt(url, "chrome-extension://", 0)
                    && forall i :: !OccursAt(url, PlaceholderPath, i))
  {
    !(StartsWith(url, "chrome://")
      || StartsWith(url, "chrome-extension://")
      || Contains(url, PlaceholderPath))
  }

  /** The public favicon service address used when the tab reports no icon. */
  function FallbackFavicon(hostname: string): (f: string)
    ensures f != ""
  {
    "https://www.google.com/s2/favicons?domain=" + hostname + "&sz=64"
  }

  /** The title stored for a tab: its own when truthy, otherwise "Untitled". */
  function StoredTitle(tab: Tab): (t: string)
    ensures t != ""
    ensures tab.title != "" ==> t == tab.title
    ensures tab.title == "" ==> t == "Untitled"
  {
    if tab.title != "" then tab.title else "Untitled"
  }

  /**
   * `chrome.runtime.getURL('suspended/suspended.html?tabId=' + tabId)`,
   * for the extension whose id is `extensionId`.
   */
  function PlaceholderUrl(extensionId: string, tabId: nat): (u: string)
    ensures StartsWith(u, "chrome-extension://")
    ensures Contains(u, PlaceholderPath)
    ensures EndsWith(u, "?tabId=" + NatToString(tabId))
  {
    var scheme, suffix := "chrome-extension://" + extensionId, "?tabId=" + NatToString(tabId);
    var u := scheme + (PlaceholderPath + suffix);
    assert u[..19] == scheme[..19] == "chrome-extension://";
    assert u[|scheme|..|scheme| + |PlaceholderPath|] == PlaceholderPath;
    ContainsAt(u, PlaceholderPath, |scheme|);
    assert u[|u| - |suffix|..] == suffix;
    u
  }

  /** A tab sent to the placeholder page is refused by a later `suspendTab`. */
  lemma PlaceholderNotSuspendable(extensionId: string, tabId: nat)
    ensures !Suspendable(PlaceholderUrl(extensionId, tabId))
  {
  }

  /** What a record needs for the placeholder page to show a title and an icon. */
  predicate Displayable(r: Record)
  {
    r.title != "" && r.favicon != ""
  }

  ghost predicate AllDisplayable(m: map<string, Record>)
  {
    forall k :: k in m ==> Displayable(m[k])
  }

  /** How a `suspendTab` call ended; the source only logs the failures. */
  datatype Outcome =
    | TabMissing          // tabs.get rejected
    | Skipped             // the eligibility check returned early
    | UrlError            // new URL(tab.url) threw on the favicon fallback path
    | WriteRejected       // storage.local.set rejected
    | NavigationRejected  // tabs.update rejected after the record was written
    | Suspended
  {
    predicate Stored() { NavigationRejected? || Suspended? }
  }

  /**
   * `suspendTab(tabId)`. `hostname` is what `new URL(tab.url).hostname`
   * gives (`None` when the constructor throws); `writeRejected` and
   * `updateRejected` say whether the browser rejects the storage write and
   * the navigation. Every failure is caught here: nothing propagates.
   */
  method SuspendTab(storage: LocalStorage, tabs: TabHost, tabId: nat, extensionId: string,
                    hostname: Option<string>, writeRejected: bool, updateRejected: bool)
    returns (outcome: Outcome)
    modifies storage, tabs
    ensures tabId !in old(tabs.tabs) ==> outcome == TabMissing
    ensures tabId in old(tabs.tabs) ==>
      var tab := old(tabs.tabs)[tabId];
      outcome == (if !Suspendable(tab.url) then Skipped
                  else if tab.favIconUrl == "" && hostname.None? then UrlError
                  else if writeRejected then WriteRejected
                  else if updateRejected then NavigationRejected
                  else Suspended)
    // only the tab's own key is written, and only once the record is complete
    ensures !outcome.Stored() ==> storage.entries == old(storage.entries)
    ensures outcome.Stored() ==>
      var key := SuspendKey(tabId);
      key in storage.entries && storage.entries == old(storage.entries)[key := storage.entries[key]]
    // the record: the original address, the title or "Untitled", the tab's icon or the fallback
    ensures outcome.Stored() ==>
      var tab, r := old(tabs.tabs)[tabId], storage.entries[SuspendKey(tabId)];
      && r.originalUrl == tab.url
      && r.title == StoredTitle(tab)
      && r.favicon == (if tab.favIconUrl != "" then tab.favIconUrl else FallbackFavicon(hostname.value))
    // the tab is navigated only after the write, and only to its own placeholder page
    ensures outcome == Suspended ==>
      tabs.tabs == old(tabs.tabs)[tabId := old(tabs.tabs)[tabId].(url := PlaceholderUrl(extensionId, tabId))]
    ensures outcome != Suspended ==> tabs.tabs == old(tabs.tabs)
    ensures AllDisplayable(old(storage.entries)) ==> AllDisplayable(storage.entries)
  {
    var found := tabs.Get(tabId);
    if found.None? {
      return TabMissing;
    }
    var tab := found.value;
    if StartsWith(tab.url, "chrome://")
      || StartsWith(tab.url, "chrome-extension://")
      || Contains(tab.url, PlaceholderPath)
    {
      return Skipped;
    }
    var favicon := "";
    if tab.favIconUrl != "" {
      favicon := tab.favIconUrl;
    } else {
      if hostname.None? {
        return UrlError;
      }
      favicon := FallbackFavicon(hostname.value);
    }
    var info := Record(tab.url, StoredTitle(tab), favicon);
    if writeRejected {
      return WriteRejected;
    }
    storage.Set(SuspendKey(tabId), info);
    var navigated := tabs.Update(tabId, PlaceholderUrl(extensionId, tabId), updateRejected);
    outcome := if navigated then Suspended else NavigationRejected;
  }

  /** The only reply the listener ever sends. */
  const Acknowledged: Response<()> := Response(true, (), "")

  /**
   * The `onMessage` listener: a `suspendTab` request starts `suspendTab` and
   * is answered `{success: true}` at once, whatever becomes of it; any other
   * request gets no reply and changes nothing.
   */
  method OnMessage(storage: LocalStorage, tabs: TabHost, request: Request, extensionId: string,
                   hostname: Option<string>, writeRejected: bool, updateRejected: bool)
    returns (reply: Option<Response<()>>)
    modifies storage, tabs
    ensures request.action == "suspendTab" <==> reply == Some(Acknowledged)
    ensures request.action != "suspendTab" ==> reply.None?
    ensures request.action != "suspendTab" || request.tabId.None? ==>
      storage.entries == old(storage.entries) && tabs.tabs == old(tabs.tabs)
    ensures request.action == "suspendTab" && request.tabId.Some? ==>
      var id := request.tabId.value;
      storage.entries == old(storage.entries)
      || (SuspendKey(id) in storage.entries
          && storage.entries == old(storage.entries)[SuspendKey(id) := storage.entries[SuspendKey(id)]])
  {
    reply := None;
    if request.action == "suspendTab" {
      if request.tabId.Some? {
        var _ := SuspendTab(storage, tabs, request.tabId.value, extensionId, hostname, writeRejected, updateRejected);
      }
      reply := Some(Acknowledged);
    }
  }
}
