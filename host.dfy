/**
 * The two browser services the core works against: the extension's local
 * key-value storage (`chrome.storage.local`) and the tab service
 * (`chrome.tabs`). Both are shared mutable objects; a call the browser may
 * reject takes the rejection as an input.
 */
module Host {

  import opened Wrappers
  import opened Records

  /** `chrome.storage.local`: one process-wide map from keys to records. */
  class LocalStorage {
    var entries: map<string, Record>

    constructor (initial: map<string, Record>)
      ensures entries == initial
    {
      entries := initial;
    }

    /** `(await get(key))[key]`: the stored record, or `undefined`. */
    method Get(key: string) returns (r: Option<Record>)
      ensures r.Some? <==> key in entries
      ensures r.Some? ==> r.value == entries[key]
    {
      r := if key in entries then Some(entries[key]) else None;
    }

    /** `set({[key]: value})` */
    method Set(key: string, value: Record)
      modifies this
      ensures entries == old(entries)[key := value]
    {
      entries := entries[key := value];
    }

    /** `remove(key)`; removing an absent key is harmless. */
    method Remove(key: string)
      modifies this
      ensures entries == old(entries) - {key}
    {
      entries := entries - {key};
    }
  }

  /**
   * The properties of a tab the core reads. An absent `title` or
   * `favIconUrl` is the empty string (both are falsy alike).
   */
  datatype Tab = Tab(url: string, title: string, favIconUrl: string)

  /** `chrome.tabs`: the open tabs by id. */
  class TabHost {
    var tabs: map<nat, Tab>

    constructor (initial: map<nat, Tab>)
      ensures tabs == initial
    {
      tabs := initial;
    }

    /** `tabs.get(id)`, which rejects for a tab that is not open. */
    method Get(id: nat) returns (r: Option<Tab>)
      ensures r.Some? <==> id in tabs
      ensures r.Some? ==> r.value == tabs[id]
    {
      r := if id in tabs then Some(tabs[id]) else None;
    }

    /**
     * The page shown in tab `id` assigns `window.location.href`: the tab
     * goes to `url`.
     */
    method Navigate(id: nat, url: string)
      requires id in tabs
      modifies this
      ensures tabs == old(tabs)[id := old(tabs)[id].(url := url)]
    {
      tabs := tabs[id := tabs[id].(url := url)];
    }

    /**
     * `tabs.update(id, {url})`: navigates the tab, unless the browser
     * rejects the call or the tab is gone.
     */
    method Update(id: nat, url: string, rejected: bool) returns (ok: bool)
      modifies this
      ensures ok <==> !rejected && id in old(tabs)
      ensures tabs == if ok then old(tabs)[id := old(tabs)[id].(url := url)] else old(tabs)
    {
      ok := !rejected && id in tabs;
      if ok {
        tabs := tabs[id := tabs[id].(url := url)];
      }
    }
  }
}
