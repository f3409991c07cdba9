/**
 * The placeholder page a suspended tab shows. On load it derives the
 * storage key from its `tabId` query parameter and looks the record up,
 * looking once more after a pause when the first lookup misses; once the
 * record is found, a click on the button or anywhere on the page, or the
 * Enter key, navigates back to the original address and removes the key.
 *
 * The load is modelled in two steps, `Load` and `Retry`, because the pause
 * between the two lookups lets other writers change the storage.
 */
module SuspendedPage {

  import opened Wrappers
  import opened Records
  import opened Host

  datatype Phase =
    | Starting        // the load script has not run yet
    | AwaitingRetry   // the first lookup missed; the second one is pending
    | Ready(info: Record)  // the record was found and the unsuspend handlers are installed
    | Failed          // an error is shown; no handler is installed

  datatype Event = ButtonClick | BodyClick | KeyDown(key: string)

  /** The events whose handlers run the unsuspend action. */
  predicate Triggers(e: Event)
  {
    e.ButtonClick? || e.BodyClick? || e == KeyDown("Enter")
  }

  const InvalidPageError: string := "Invalid suspended page"
  const LoadError: string := "Error loading tab information"

  function NotFoundError(tabId: string): string
  {
    "Tab information not found (ID: " + tabId + "). This may be a corrupted suspended tab."
  }

  class Page {
    /** `chrome.storage.local`, shared with the rest of the extension. */
    const storage: LocalStorage
    /** The browser's tabs, and the id of the tab this page is shown in. */
    const tabs: TabHost
    const hostTab: nat
    var phase: Phase
    var tabId: string
    var storageKey: string
    /** The messages `showError` has appended, in order. */
    var errors: seq<string>
    var unsuspendButtonShown: bool
    var documentTitle: string
    var heading: string
    var faviconShown: bool
    /** The keys this page has looked up in the storage, in order. */
    ghost var lookups: seq<string>

    constructor (storage: LocalStorage, tabs: TabHost, hostTab: nat)
      ensures this.storage == storage && this.tabs == tabs && this.hostTab == hostTab
      ensures phase == Starting && errors == [] && unsuspendButtonShown && lookups == []
      ensures documentTitle == "" && heading == "" && !faviconShown
    {
      this.storage := storage;
      this.tabs := tabs;
      this.hostTab := hostTab;
      phase := Starting;
      tabId, storageKey := "", "";
      errors := [];
      unsuspendButtonShown := true;
      documentTitle, heading, faviconShown := "", "", false;
      lookups := [];
    }

    /** `showError(message)`: appends the message and hides the unsuspend button. */
    method ShowError(message: string)
      modifies this`errors, this`unsuspendButtonShown
      ensures errors == old(errors) + [message] && !unsuspendButtonShown
    {
      errors := errors + [message];
      unsuspendButtonShown := false;
    }

    /** Fills the page from the record and installs the unsuspend handlers. */
    method Render(info: Record)
      modifies this`documentTitle, this`heading, this`faviconShown, this`phase
      ensures documentTitle == info.title + " - Suspended" && heading == info.title
      ensures faviconShown <==> info.favicon != ""
      ensures phase == Ready(info)
    {
      documentTitle := info.title + " - Suspended";
      faviconShown := info.favicon != "";
      heading := info.title;
      phase := Ready(info);
    }

    /**
     * The load script up to the first lookup. `tabIdParam` is
     * `URLSearchParams.get('tabId')`: `None` when the parameter is missing.
     */
    method Load(tabIdParam: Option<string>)
      requires phase == Starting
      modifies this
      ensures storage.entries == old(storage.entries) && tabs.tabs == old(tabs.tabs)
      // without a tab id the page reports an error and never reads the storage
      ensures tabIdParam.None? || tabIdParam.value == "" ==>
        && phase == Failed
        && errors == old(errors) + [InvalidPageError] && !unsuspendButtonShown
        && lookups == old(lookups)
        && tabId == old(tabId) && storageKey == old(storageKey)
        && documentTitle == old(documentTitle) && heading == old(heading) && faviconShown == old(faviconShown)
      ensures tabIdParam.Some? && tabIdParam.value != "" ==>
        && tabId == tabIdParam.value
        && storageKey == KeyFor(tabIdParam.value)
        && lookups == old(lookups) + [storageKey]
        && errors == old(errors)
        && unsuspendButtonShown == old(unsuspendButtonShown)
        && phase == (if storageKey in storage.entries then Ready(storage.entries[storageKey]) else AwaitingRetry)
      ensures phase.Ready? ==>
        documentTitle == phase.info.title + " - Suspended" && heading == phase.info.title
        && (faviconShown <==> phase.info.favicon != "")
      // while the page waits to look again it shows nothing of a record
      ensures phase == AwaitingRetry ==>
        documentTitle == old(documentTitle) && heading == old(heading) && faviconShown == old(faviconShown)
    {
      if tabIdParam.None? || tabIdParam.value == "" {
        ShowError(InvalidPageError);
        phase := Failed;
        return;
      }
      tabId := tabIdParam.value;
      storageKey := KeyFor(tabId);
      var found := storage.Get(storageKey);
      lookups := lookups + [storageKey];
      if found.Some? {
        Render(found.value);
      } else {
        phase := AwaitingRetry;
      }
    }

    /**
     * The second lookup, as written: when it finds the record, the script
     * assigns it to the `const` that held the first (missing) result, which
     * throws a TypeError that the outer handler reports as a load error. So
     * the page never becomes ready on this path and never shows the record.
     */
    method Retry()
      requires phase == AwaitingRetry
      modifies this
      ensures storage.entries == old(storage.entries) && tabs.tabs == old(tabs.tabs)
      ensures storageKey == old(storageKey) && tabId == old(tabId)
      ensures lookups == old(lookups) + [storageKey]
      ensures phase == Failed && !unsuspendButtonShown
      ensures errors == old(errors) + [if storageKey in storage.entries then LoadError else NotFoundError(tabId)]
      ensures documentTitle == old(documentTitle) && heading == old(heading) && faviconShown == old(faviconShown)
    {
      var found := storage.Get(storageKey);
      lookups := lookups + [storageKey];
      if found.None? {
        ShowError(NotFoundError(tabId));
      } else {
        // `tabInfo = retryTabInfo;` assigns to a const: TypeError, caught below
        ShowError(LoadError);
      }
      phase := Failed;
    }

    /** The second lookup as evidently intended: a record found on retry is used. */
    method RetryIntended()
      requires phase == AwaitingRetry
      modifies this
      ensures storage.entries == old(storage.entries) && tabs.tabs == old(tabs.tabs)
      ensures storageKey == old(storageKey) && tabId == old(tabId)
      ensures lookups == old(lookups) + [storageKey]
      ensures storageKey in storage.entries ==>
        && phase == Ready(storage.entries[storageKey])
        && errors == old(errors) && unsuspendButtonShown == old(unsuspendButtonShown)
        && documentTitle == phase.info.title + " - Suspended" && heading == phase.info.title
        && (faviconShown <==> phase.info.favicon != "")
      ensures storageKey !in storage.entries ==>
        && phase == Failed && errors == old(errors) + [NotFoundError(tabId)] && !unsuspendButtonShown
        && documentTitle == old(documentTitle) && heading == old(heading) && faviconShown == old(faviconShown)
    {
      var found := storage.Get(storageKey);
      lookups := lookups + [storageKey];
      if found.None? {
        ShowError(NotFoundError(tabId));
        phase := Failed;
      } else {
        Render(found.value);
      }
    }

    /**
     * `unsuspendAction`: the tab showing this page goes to the original
     * address, then this page's key is removed (the 100 ms deferral is not
     * modelled; the removal happens). A page is shown in an open tab.
     */
    method Unsuspend()
      requires phase.Ready? && hostTab in tabs.tabs
      modifies tabs, storage
      ensures tabs.tabs == old(tabs.tabs)[hostTab := old(tabs.tabs)[hostTab].(url := phase.info.originalUrl)]
      ensures storage.entries == old(storage.entries) - {storageKey}
    {
      tabs.Navigate(hostTab, phase.info.originalUrl);
      storage.Remove(storageKey);
    }

    /**
     * An event reaching the page. A click on the button also bubbles to the
     * body, so both listeners run the action; Enter runs it through the
     * keyboard listener. Before the page is ready no listener is installed.
     */
    method Dispatch(e: Event)
      requires hostTab in tabs.tabs
      modifies tabs, storage
      ensures phase.Ready? && Triggers(e) ==>
        && tabs.tabs == old(tabs.tabs)[hostTab := old(tabs.tabs)[hostTab].(url := phase.info.originalUrl)]
        && storage.entries == old(storage.entries) - {storageKey}
      ensures !(phase.Ready? && Triggers(e)) ==>
        tabs.tabs == old(tabs.tabs) && storage.entries == old(storage.entries)
    {
      if phase.Ready? {
        match e
        case ButtonClick =>
          Unsuspend();  // the button's own listener
          Unsuspend();  // the body's listener, as the click bubbles
        case BodyClick =>
          Unsuspend();
        case KeyDown(key) =>
          if key == "Enter" {
            Unsuspend();
          }
      }
    }
  }
}
