# Tab Suspender, modelled in Dafny

Tab Suspender is a browser extension that frees a tab's memory. It
replaces the tab's page with a lightweight placeholder page and brings the
original page back on request. This project models the parts that decide
what happens:

- **Background worker** (`Background`). It stores a record
  `{originalUrl, title, favicon}` under the key `suspended_<tabId>`. Then it
  navigates the tab to `suspended/suspended.html?tabId=<tabId>`. It refuses
  browser pages, extension pages and placeholder pages.
- **Placeholder page** (`SuspendedPage`). It reads its `tabId` parameter and
  looks the record up. When the first lookup misses, it looks once more
  after a pause. It shows the record. A click on its button, a click
  anywhere on the page, or the Enter key sends it back to the original
  address and removes the record.
- **Popup** (`Popup`). It disables its button on the pages the worker
  refuses. Otherwise it sends a `suspendTab` request with a 10-second
  timeout and reports the outcome.
- **Options page** (`OptionsPage`, `OptionsSummary`, `OptionsBackup`). It
  counts the stored `suspended_` keys and enables or disables the export
  and recreate buttons to match. It validates a selected backup file. It
  sends the export, import, recreate, suspend-all and unsuspend-all requests
  and turns each reply into a status message: first 3 errors, then
  "... and N more errors"; at most 2 warnings, with their `Warning: ` prefix
  removed.

The browser is modelled by two classes in `Host`: `LocalStorage` (a map
from keys to records, standing for `chrome.storage.local`) and `TabHost` (a
map from tab ids to tabs, standing for `chrome.tabs`). Methods change
them in place. The browser's answers that the code cannot predict are
parameters of the methods:
- whether `chrome.tabs.get`, `chrome.storage.local.set` or
  `chrome.tabs.update` rejects;
- what `new URL(url).hostname` gives, or that it throws;
- what `URLSearchParams.get('tabId')` gives;
- the parsed content of a backup file, or the read or parse failure;
- how a message's reply arrives (`Delivery`: answered, timed out, or a
  port error).

`Lifecycle` connects the parts. The popup and the worker agree on which
pages can be suspended. A suspended tab comes back to its address and
its record goes away. A record written while the placeholder page waits
is lost to the page as written.

## Model

| member | source | states |
|---|---|---|
| Strings.StartsWith | background.js:19-20 | `startsWith`: true exactly when the pattern occurs at position 0 |
| Strings.EndsWith | options/options.js:181 | `endsWith`: true exactly when the pattern occurs at the last position it fits |
| Strings.Contains | background.js:21 | `includes`: true exactly when the pattern occurs at some position |
| Strings.IndexOf | background.js:21 | `includes`: the result is the leftmost occurrence of the pattern; `None` exactly when the pattern occurs nowhere |
| Strings.ReplaceFirst | options/options.js:355 | `String.replace` with a string pattern: the leftmost occurrence, and only it, is replaced by the replacement; a string without the pattern is returned unchanged; the length changes by the difference |
| Strings.NatToString | background.js:43 | a tab id in a template literal is a non-empty string of decimal digits. It is a single digit exactly for ids below 10 and has no leading zero except for 0 itself |
| Strings.NatToStringValue | background.js:43 | the text is the decimal numeral of the id: its digits, read most significant first, denote the id |
| Strings.NatToStringInjective | background.js:43 | distinct tab ids are written as distinct strings |
| Json.Member | options/options.js:190 | a property read finds a value exactly when the object has a property of that name, and the value found is that property's |
| Json.Truthy | options/options.js:190 | JavaScript truthiness: a value is falsy exactly when it is `null`, `false`, 0 or the empty string |
| Json.KeyCount | options/options.js:194 | `Object.keys(..).length` for a value that is not `null`: an object's number of properties, an array's number of items, a string's length, and 0 for booleans and numbers. `Object.keys(null)` throws, so the model admits no `null` |
| Json.Get | options/options.js:190 | reading a property of `null` throws, and nothing else throws; reading a property of an object yields that object's property of that name (or `undefined`); other values yield `undefined` |
| Json.Values | options/options.js:199 | `Object.values` of an object is its property values, in document order; of an array, its items; as many entries as `Object.keys` |
| Records.KeyFor | background.js:43 | a key is the `suspended_` prefix followed by the token, so its length is the sum |
| Records.KeyForRoundTrip | background.js:43 | every key built this way is counted by the options page's `startsWith('suspended_')` test and gives its token back |
| Records.KeyForInjective | suspended/suspended.js:14 | distinct tokens give distinct storage keys |
| Records.SuspendKeyInjective | background.js:43 | distinct tabs are stored under distinct keys |
| Records.SuspendedKeys | options/options.js:50-54 | the counted keys are exactly the stored keys that start with `suspended_` |
| Records.SuspendedKeysAfterWrite | background.js:43 | writing a `suspended_` key adds exactly that key to the counted keys; the count grows by one unless the key was there |
| Records.SuspendedKeysAfterRemove | suspended/suspended.js:96 | removing a key removes exactly it from the counted keys; the count drops by one when it was counted |
| Host.LocalStorage.Get | suspended/suspended.js:15-16 | a lookup finds a record exactly when the key is stored, and finds the stored record |
| Host.LocalStorage.Set | background.js:43 | the key maps to the record afterwards; every other key is unchanged |
| Host.LocalStorage.Remove | suspended/suspended.js:96 | the key is gone afterwards; every other key is unchanged |
| Host.TabHost.Get | background.js:16 | a tab is found exactly when its id is known, and it is that tab |
| Host.TabHost.Navigate | suspended/suspended.js:92 | assigning `window.location.href` on a page sends the tab showing it to the address; no other tab changes |
| Host.TabHost.Update | background.js:47 | the navigation succeeds exactly when it is not rejected and the tab exists; it changes only that tab's address |
| Messaging.TimeoutMessage | popup/popup.js:98 | the timer's rejection message is "Message timeout after " then the delay in decimal then "ms"; TimeoutMentionsTimeout shows it contains "timeout" |
| Messaging.Failure | popup/popup.js:95-111 | a handler proceeds exactly when the reply arrived and has `success`. A timeout gives the "Message timeout after N ms" message, and a port error gives the `lastError` message. A reply that is absent gives the handler's fallback. A failed reply gives its own error, or the fallback when the error is empty |
| Messaging.TimeoutMentionsTimeout | popup/popup.js:98 | the timeout message contains "timeout", so every handler's timeout test recognises it |
| Messaging.TimeoutNotNoSuspendedTabs | options/options.js:148 | the timeout message never contains "No suspended tabs", so export and recreate do not mistake a timeout for an empty store |
| Background.Suspendable | background.js:19-21 | the worker accepts a page exactly when `chrome://` does not occur at its start, `chrome-extension://` does not occur at its start, and the placeholder path occurs nowhere in it |
| Background.StoredTitle | background.js:38 | the stored title is never empty: the tab's own title when it has one, "Untitled" otherwise |
| Background.FallbackFavicon | background.js:32 | the fallback icon address is never empty, so a stored record always has an icon |
| Background.PlaceholderUrl | background.js:46 | the placeholder address starts with `chrome-extension://`, contains the placeholder path and ends with `?tabId=` and the tab id, so PlaceholderNotSuspendable follows |
| Background.PlaceholderNotSuspendable | background.js:19-21 | a tab already sent to its placeholder page is refused by a later `suspendTab` |
| Background.SuspendTab | background.js:13-52 | the outcome of each path: missing tab, refused page, URL error, rejected write, rejected navigation, or success. The store changes only when the write happens, and only at `suspended_<tabId>`. The record holds the address, the title or "Untitled", and the tab's icon or the fallback icon address. The tab is navigated to its own placeholder page only after the write. Records that can be displayed stay displayable |
| Background.OnMessage | background.js:4-10 | a `suspendTab` request is answered `{success: true}` exactly when its action is `suspendTab`, whatever becomes of the suspension; any other request gets no reply and changes nothing; at most the tab's own key changes |
| SuspendedPage.Page.ShowError | suspended/suspended.js:125-139 | the message is appended after the earlier ones and the unsuspend button is hidden |
| SuspendedPage.Page.Render | suspended/suspended.js:38-86 | the document title is the record's title followed by " - Suspended", the heading is the title, and the icon is shown exactly when the record has one |
| SuspendedPage.Page.Load | suspended/suspended.js:4-18 | a missing or empty `tabId` shows "Invalid suspended page", reads nothing and changes no other field. Otherwise the page looks up `suspended_<tabId>` once. It is ready with the stored record, and shows it, when the key is there. When it is not, it waits to retry and shows nothing. The store and the tabs are unchanged |
| SuspendedPage.Page.Retry | suspended/suspended.js:18-36 | as written: the second lookup is made. A miss shows the not-found error with the id. A hit shows "Error loading tab information", because line 35 assigns to a `const`. The page ends failed either way, and the title, heading and icon stay as they were: the record is never shown |
| SuspendedPage.Page.RetryIntended | suspended/suspended.js:18-36 | the second lookup as intended. A hit makes the page ready with the stored record and no error, and shows its title, heading and icon. A miss shows the not-found error and nothing of a record |
| SuspendedPage.Page.Unsuspend | suspended/suspended.js:89-103 | the tab showing the page goes to the record's original address, no other tab changes, and exactly the page's key is removed from the store |
| SuspendedPage.Page.Dispatch | suspended/suspended.js:105-117 | once the page is ready, a button click, a page click or Enter sends the page's tab to the original address and removes the key. Before that, or for any other key, nothing changes. A button click also bubbles to the page, so the action runs twice with the same effect |
| Popup.CannotSuspend | popup/popup.js:9-11 | the popup refuses a page exactly when it starts with `chrome://` or `chrome-extension://`, or contains the placeholder path anywhere; PopupAgreesWithBackground compares it with the worker's test |
| Popup.InfoText | popup/popup.js:16-21 | the explanation says "already suspended" exactly for placeholder pages, and "system pages" exactly for the other refused pages |
| Popup.RequestFor | popup/popup.js:40-43 | the click sends a `suspendTab` request carrying the active tab's id |
| Popup.ErrorText | popup/popup.js:70-78 | the error line is never empty. A timeout is reported as a timeout before anything else. Then "system pages" gives the system-page text, then "already suspended" gives "Tab is already suspended.". Any other message is shown as it is, or the default text when it is empty |
| Popup.TimedOutClickReportsTimeout | popup/popup.js:43 | a click whose request times out after 10000 ms shows "Request timed out. Please try again." |
| Popup.View.Init | popup/popup.js:8-26 | the click handler is installed exactly for pages the popup can suspend. Refused pages get a disabled "Cannot suspend this tab" button and the matching explanation |
| Popup.View.Click | popup/popup.js:26-91 | the request for the tab is sent. On success the button says "Tab suspended!" and the popup closes. On failure the button is enabled again as "Suspend Current Tab" and the error line shows the classified message |
| OptionsSummary.FailureText | options/options.js:144-154 | the failure text tests for an empty store first (for the handlers that do), then for a timeout, and otherwise prefixes the message |
| OptionsSummary.Bullets | options/options.js:362-364 | one bullet per text, in order |
| OptionsSummary.ErrorList | options/options.js:360-368 | the error list starts with its heading. It has one line per shown error, at most 3, and ends with a "more errors" line for the rest exactly when there are more than 3. ErrorListAccounts states what it shows |
| OptionsSummary.ErrorListAccounts | options/options.js:360-368 | an error list shows the first errors, at most 3, in order. Its "more errors" line counts every error left out and appears exactly when there are more than 3 |
| OptionsSummary.Warnings | options/options.js:349 | the warnings are errors that contain "Warning:", taken from the errors |
| OptionsSummary.ActualErrors | options/options.js:350 | the actual errors are errors without "Warning:", taken from the errors |
| OptionsSummary.FiltersOfOne | options/options.js:349-350 | a single error is kept by the warnings filter exactly when it contains "Warning:", and by the other filter exactly when it does not |
| OptionsSummary.FiltersKeepOrder | options/options.js:349-350 | both filters keep the errors' order: filtering a concatenation filters each part in turn |
| OptionsSummary.WarningsPartition | options/options.js:349-350 | every error is either a warning or an actual error, and none is lost or duplicated |
| OptionsSummary.StripWarning | options/options.js:355 | a warning that starts with "Warning: " loses those 9 characters; a message that does not contain it is unchanged |
| OptionsSummary.Stripped | options/options.js:354-356 | each warning is shown with its first "Warning: " removed |
| OptionsSummary.WarningList | options/options.js:352-358 | the warning list starts with its heading and has one line per shown warning, at most 2; WarningListShows states what it shows |
| OptionsSummary.WarningListShows | options/options.js:352-358 | a warning list shows at most 2 warnings, in order, each without its "Warning: " prefix, and counts nothing as left out |
| OptionsSummary.AppendErrors | options/options.js:360-368 | the loop appends exactly the error list: heading, up to 3 bullets, then the "more errors" line |
| OptionsSummary.AppendWarnings | options/options.js:352-358 | the loop appends exactly the warning list: heading and up to 2 stripped bullets |
| OptionsSummary.RecreateSummary | options/options.js:335-371 | the recreation message is the headline with the group line, then the warnings, then the actual errors, each part only when non-empty |
| OptionsSummary.RecreateMessageAccounts | options/options.js:336-369 | a recreation message shows at most 2 warnings and 3 actual errors, in order. It counts the actual errors it leaves out. Warnings and actual errors together are all the errors |
| OptionsSummary.SuspendAllSummary | options/options.js:424-445 | the suspend-all message opens with "suspended X of Y". The skipped line appears exactly when tabs were skipped. It shows the first 3 errors and counts the rest |
| OptionsSummary.UnsuspendAllSummary | options/options.js:495-512 | the unsuspend-all message opens with "unsuspended X of Y", shows the first 3 errors and counts the rest |
| OptionsSummary.ImportSummary | options/options.js:267-279 | the import message opens with the restored count. The groups line appears exactly when groups are available |
| OptionsSummary.PageHeader | options/options.js:582-601 | "bulk" gives the "Bulk Operations" header and "settings" the "Settings & Information" header, each with its description; every other section gets the backup header; no header is blank |
| OptionsBackup.HasSuspendedTabs | options/options.js:190 | the document has `suspendedTabs` that pass the test exactly when the document is an object whose `suspendedTabs` property is an object or an array |
| OptionsBackup.SuspendedTabs | options/options.js:190 | an accepted `suspendedTabs` is an object or an array |
| OptionsBackup.GroupCount | options/options.js:195 | the number of keys of `tabGroups` when it is truthy, and 0 when it is absent or falsy |
| OptionsBackup.GroupedCount | options/options.js:198-203 | at most one per tab is counted, and the count is zero exactly when no tab has a truthy `groupInfo` |
| OptionsBackup.CountTabsInGroups | options/options.js:198-203 | the loop throws exactly when an entry is `null`; otherwise it counts the entries with a truthy `groupInfo` |
| OptionsBackup.Acceptable | options/options.js:179-203 | an accepted file has a name of at least 5 characters ending in `.json` and parsed content that is an object; ValidateFile accepts exactly these files |
| OptionsBackup.ValidateFile | options/options.js:179-203 | a file is accepted exactly when it passes every check. The checks run in order: `.json` name, readable, parsable, not `null`, an object-typed `suspendedTabs`, no `null` entry. Each failure is reported with its reason, a `null` entry as a null access. An accepted file gets its tab, group and grouped-tab counts, with grouped tabs never more than tabs |
| OptionsPage.CountSuspendedKeys | options/options.js:45-54 | the loop counts exactly the stored keys that start with `suspended_` |
| OptionsPage.CountButton | options/options.js:60-104 | the export and recreate buttons are disabled, with their "No tabs to ..." caption, exactly when the count is zero, and enabled with their action caption otherwise |
| OptionsPage.ButtonsDisabledIffNothingSuspended | options/options.js:61-104 | both buttons are disabled exactly when no stored key starts with `suspended_` |
| OptionsPage.TimeoutsReportedAsTimeouts | options/options.js:620-624 | every handler reports its own timeout text for a timed-out request. Export and recreate test for an empty store first, and that test never matches a timeout |
| OptionsPage.Page.UpdateSuspendedCount | options/options.js:45-111 | the shown count is the number of `suspended_` keys and both buttons follow it. When reading the store fails, the count shows an error and the buttons stay as they were |
| OptionsPage.Page.HandleFileSelect | options/options.js:170-241 | no file hides the file info and disables import, keeping an earlier selection. An accepted file is selected and enables import, and its counts are shown. A refused file clears the selection and disables import |
| OptionsPage.Page.HandleImport | options/options.js:244-314 | without a selection nothing happens. Otherwise `importBackup` is sent. Success shows the import message and clears the selection. Failure shows the classified error and keeps the selection. Afterwards the button is enabled exactly when a selection remains |
| OptionsPage.Page.HandleExport | options/options.js:114-167 | `exportBackup` is sent. Success shows the backed-up count and file name; failure shows the classified error. The button is enabled again afterwards |
| OptionsPage.Page.HandleRecreate | options/options.js:317-403 | `recreateSuspendedTabs` is sent. Success shows the recreation message; failure shows the classified error. The button is enabled again afterwards |
| OptionsPage.Page.HandleSuspendAll | options/options.js:406-474 | `suspendAllButActive` is sent. Success shows the suspend-all message; failure shows the classified error. The button is enabled again afterwards |
| OptionsPage.Page.HandleUnsuspendAll | options/options.js:477-540 | `unsuspendAllTabs` is sent. Success shows the unsuspend-all message; failure shows the classified error. The button is enabled again afterwards |
| OptionsPage.Page.UpdatePageHeader | options/options.js:582-601 | the header becomes the one chosen for the section |
| Lifecycle.PopupAgreesWithBackground | popup/popup.js:9-11 | the popup disables its button for exactly the pages the worker refuses to suspend |
| Lifecycle.PopupClickAcknowledged | background.js:4-10 | a popup click delivered to the worker's listener is acknowledged at once. The popup reports success and closes even when the suspension is refused or fails. The store changes at most at the tab's key |
| Lifecycle.SuspendThenRestore | background.js:36-47 | suspending a tab and then clicking its placeholder page, shown in that tab, has these effects: the page shows the stored title; the tabs end exactly as they began, so the tab is back at its original address; and the store and the counted keys lose exactly the tab's key |
| Lifecycle.RecordWrittenDuringPause | suspended/suspended.js:21-35 | suppose the record is written between the two lookups. The page as written fails with "Error loading tab information". The intended retry shows the record |

## Left out

- Page markup and styling are not modelled, except the popup button's colour after a click. This covers HTML, SVG icons, CSS classes, the options page's button colours, the popup's 3-second colour reset, the 500 ms delay before the popup closes, and the spinner states shown while a request is pending.
- The semi-transparent favicon drawn on a canvas, and the icon's `onerror` fallback, are not modelled: they need image loading.
- Timers are not modelled as time. The 1000 ms pause on the placeholder page is the gap between `Load` and `Retry`. The 100 ms deferred removal is taken to happen; leaving the page could cancel it, and the model does not capture that. The delayed count refreshes after a success, and the 30-second periodic refresh, are left to the caller, who can call `UpdateSuspendedCount`.
- `chrome.tabs.query` is not modelled. The popup receives the active tab's id and address. The options page's total tab count, its version display and its navigation highlighting are left out.
- `chrome.runtime.getURL` is modelled as the `chrome-extension://<id>` prefix. `URLSearchParams` and `new URL(..).hostname` are inputs.
- A tab without an address is left out: every tab has a string `url`, and an absent title or icon is the empty string.
- Some storage failures are left out: a rejected read on the placeholder page, which would show the load error, and a rejected removal.
- A tab in `TabHost` keeps only what `suspendTab` reads. The title the placeholder page gives its document is not copied into the tab's `title`.
- `unsuspendAction`'s "Failed to restore tab" branch is not reachable in the model: assigning the location does not throw.
- Reply data is assumed well-formed: every field the handlers read is present and has its type. Malformed reply data would throw inside the handlers.
- The backup document carried by the `importBackup` request is not part of `Request`.
- The worker's handling of the export, import, recreate, suspend-all and unsuspend-all actions is outside this model. `background.js` has no handler for them, and the model's listener gives them no reply. How the options page's requests then settle is the `Delivery` input.
- Backup import, export, recreation, suspend-all and unsuspend-all are not modelled as operations on the store. Only the options page's side is modelled: the request sent and the message shown for the reply.
- `FileReader` and `JSON.parse` are inputs. A file arrives unreadable, malformed with a message, or parsed. The model's objects are taken to have distinct property names, as `JSON.parse` produces. Numbers are reals. A string's length counts characters, not UTF-16 code units.
- Dates shown with `toLocaleString` and the backup's version are not modelled. The import message keeps only whether a timestamp is present.
- OptionsSummary.PageHeader: a section id naming an inherited `Object.prototype` property (such as `constructor`) picks that property in the source and leaves the title undefined. The model gives such ids the backup header.
- Json.Values: lists an object's values in document order. JavaScript lists integer-like property names first, in ascending numeric order, so `{"b":1,"2":2}` gives `[2,1]` there and `[1,2]` here. Only the `null`-entry test and the count use these values, and neither depends on their order.
- Background.SuspendTab: modelled as one step. In the source, `tabs.get`, `storage.local.set` and `tabs.update` are awaited in turn, and another event can run between them. For example, the tab can close after the write, or the options page can count the new record before the navigation. The model's contract describes the state after the last step; it does not show the intermediate states to the other handlers.
- Background.OnMessage: its contract states only that at most the tab's own key changes. The full effect is `SuspendTab`'s contract, because the source starts `suspendTab` without awaiting it.

## Findings

| source | as written | input that shows it | evidently intended | confidence | as-written member | corrected member |
|---|---|---|---|---|---|---|
| suspended/suspended.js:35 | when the second lookup finds the record, the code assigns it to `tabInfo`, which line 16 declares `const`. The assignment throws a TypeError, and lines 119-121 report it as "Error loading tab information" | the first lookup of `suspended_7` misses; the worker's write lands during the 1000 ms pause; the second lookup finds the record | the record found on retry is shown and the unsuspend handlers are installed | high; not executed | SuspendedPage.Page.Retry | SuspendedPage.Page.RetryIntended |
