/**
 * The options page: the suspended-tab count and the buttons that depend
 * on it, the backup file selection and the import guard, the handlers of
 * the backup and bulk commands (which send a request and show a summary
 * of the reply), and the page header of the selected section.
 */
module OptionsPage {

  import opened Wrappers
  import opened Records
  import opened Host
  import opened Messaging
  import opened Json
  import opened OptionsBackup
  import opened OptionsSummary

  datatype Button = Button(disabled: bool, caption: string)

  datatype Status = Hidden | Succeeded(lines: seq<Line>) | Errored(text: string)

  datatype FileInfo =
    | NoFile
    | ValidFile(name: string, tabCount: nat, groupCount: nat, tabsInGroups: nat)
    | InvalidFile(reason: Rejection)

  /** Lines 47-54: the number of stored keys that begin with `suspended_`. */
  method CountSuspendedKeys(entries: map<string, Record>) returns (count: nat)
    ensures count == |SuspendedKeys(entries)|
  {
    count := 0;
    var remaining := entries.Keys;
    assert SuspendedKeys(entries - remaining) == {};
    while remaining != {}
      invariant remaining <= entries.Keys
      invariant count == |SuspendedKeys(entries - remaining)|
      decreases |remaining|
    {
      var k :| k in remaining;
      ghost var visited := entries - remaining;
      assert entries - (remaining - {k}) == visited[k := entries[k]];
      if IsSuspendedKey(k) {
        SuspendedKeysAfterWrite(visited, k, entries[k]);
        count := count + 1;
      } else {
        assert SuspendedKeys(visited[k := entries[k]]) == SuspendedKeys(visited);
      }
      remaining := remaining - {k};
    }
    assert entries - remaining == entries;
  }

  /**
   * A button that depends on the suspended-tab count (lines 61-104): disabled
   * with its "nothing to do" caption exactly when the count is zero.
   */
  function CountButton(count: nat, emptyCaption: string, caption: string): (b: Button)
    ensures b.disabled <==> count == 0
    ensures b.caption == (if b.disabled then emptyCaption else caption)
  {
    if count == 0 then Button(true, emptyCaption) else Button(false, caption)
  }

  function ExportButtonFor(count: nat): Button
  {
    CountButton(count, "No tabs to export", "Export Backup")
  }

  function RecreateButtonFor(count: nat): Button
  {
    CountButton(count, "No tabs to recreate", "Recreate Suspended Tabs")
  }

  /** Both buttons are disabled exactly when no stored key begins with `suspended_`. */
  lemma ButtonsDisabledIffNothingSuspended(entries: map<string, Record>)
    ensures ExportButtonFor(|SuspendedKeys(entries)|).disabled <==> forall k :: k in entries ==> !IsSuspendedKey(k)
    ensures RecreateButtonFor(|SuspendedKeys(entries)|).disabled <==> forall k :: k in entries ==> !IsSuspendedKey(k)
  {
  }

  const ExportTimeoutMs: nat := 15000
  const ImportTimeoutMs: nat := 15000
  const BulkTimeoutMs: nat := 30000

  /**
   * A request that times out is reported as a timeout by every handler:
   * the empty-store test that export and recreate make first never matches
   * the timeout message.
   */
  lemma TimeoutsReportedAsTimeouts()
    ensures ExportFailureText(TimeoutMessage(ExportTimeoutMs)) == "Export timed out. Please try again."
    ensures ImportFailureText(TimeoutMessage(ImportTimeoutMs)) == "Import timed out. Please try again."
    ensures RecreateFailureText(TimeoutMessage(BulkTimeoutMs))
         == "Recreation timed out. Some tabs may have been created successfully."
    ensures SuspendAllFailureText(TimeoutMessage(BulkTimeoutMs))
         == "Operation timed out. Some tabs may have been suspended successfully."
    ensures UnsuspendAllFailureText(TimeoutMessage(BulkTimeoutMs))
         == "Operation timed out. Some tabs may have been unsuspended successfully."
  {
    TimeoutMentionsTimeout(ExportTimeoutMs);
    TimeoutNotNoSuspendedTabs(ExportTimeoutMs);
    TimeoutMentionsTimeout(BulkTimeoutMs);
    TimeoutNotNoSuspendedTabs(BulkTimeoutMs);
  }

  class Page {
    /** `chrome.storage.local` */
    const storage: LocalStorage
    /** The three count displays; `None` shows "Error". */
    var shownCount: Option<nat>
    var exportButton: Button
    var recreateButton: Button
    var importButton: Button
    var suspendAllButton: Button
    var unsuspendAllButton: Button
    var fileInfo: FileInfo
    /** `window.selectedBackupData` */
    var selectedBackup: Option<Value>
    var exportStatus: Status
    var importStatus: Status
    var recreateStatus: Status
    var suspendAllStatus: Status
    var unsuspendAllStatus: Status
    var header: Header
    /** The requests sent to the background worker, in order. */
    var sent: seq<Request>

    /** The page as loaded, before its start-up script runs; the initial markup is not modelled. */
    constructor (storage: LocalStorage)
      ensures this.storage == storage
      ensures shownCount.None? && fileInfo == NoFile && selectedBackup.None? && sent == []
      ensures exportStatus == importStatus == recreateStatus == suspendAllStatus == unsuspendAllStatus == Hidden
    {
      this.storage := storage;
      shownCount := None;
      exportButton, recreateButton, importButton := Button(false, ""), Button(false, ""), Button(true, "");
      suspendAllButton, unsuspendAllButton := Button(false, ""), Button(false, "");
      fileInfo := NoFile;
      selectedBackup := None;
      exportStatus, importStatus, recreateStatus := Hidden, Hidden, Hidden;
      suspendAllStatus, unsuspendAllStatus := Hidden, Hidden;
      header := BackupHeader;
      sent := [];
    }

    /**
     * `updateSuspendedCount`; `rejected` says whether reading the storage
     * fails, in which case the counts show "Error" and the buttons stay.
     */
    method UpdateSuspendedCount(rejected: bool)
      modifies this`shownCount, this`exportButton, this`recreateButton
      ensures rejected ==>
        shownCount.None? && exportButton == old(exportButton) && recreateButton == old(recreateButton)
      ensures !rejected ==>
        var n := |SuspendedKeys(storage.entries)|;
        shownCount == Some(n) && exportButton == ExportButtonFor(n) && recreateButton == RecreateButtonFor(n)
    {
      if rejected {
        shownCount := None;
        return;
      }
      var count := CountSuspendedKeys(storage.entries);
      shownCount := Some(count);
      exportButton := ExportButtonFor(count);
      recreateButton := RecreateButtonFor(count);
    }

    /**
     * `handleFileSelect`: no file hides the file information and disables
     * import, keeping any earlier selection; an accepted file is selected
     * and enables import; a refused one clears the selection.
     */
    method HandleFileSelect(file: Option<File>)
      modifies this`fileInfo, this`importButton, this`selectedBackup
      ensures importButton.caption == old(importButton.caption)
      ensures file.None? ==>
        fileInfo == NoFile && importButton.disabled && selectedBackup == old(selectedBackup)
      ensures file.Some? ==>
        && (importButton.disabled <==> !Acceptable(file.value))
        && (selectedBackup.Some? <==> Acceptable(file.value))
        && (selectedBackup.Some? ==> selectedBackup.value == file.value.content.doc)
      ensures file.Some? && Acceptable(file.value) ==>
        var doc := file.value.content.doc;
        fileInfo == ValidFile(file.value.name, KeyCount(SuspendedTabs(doc)), GroupCount(doc),
                              GroupedCount(Values(SuspendedTabs(doc))))
        && fileInfo.tabsInGroups <= fileInfo.tabCount
      ensures file.Some? && !Acceptable(file.value) ==> fileInfo.InvalidFile?
    {
      if file.None? {
        fileInfo := NoFile;
        importButton := importButton.(disabled := true);
        return;
      }
      var verdict := ValidateFile(file.value);
      match verdict
      case Accepted(doc, tabCount, groupCount, tabsInGroups) =>
        fileInfo := ValidFile(file.value.name, tabCount, groupCount, tabsInGroups);
        importButton := importButton.(disabled := false);
        selectedBackup := Some(doc);
      case Rejected(reason) =>
        fileInfo := InvalidFile(reason);
        importButton := importButton.(disabled := true);
        selectedBackup := None;
    }

    /**
     * `handleImport`: does nothing without a selected backup; otherwise
     * sends it and reports the reply. A successful import clears the
     * selection; the button ends enabled exactly when a selection remains.
     */
    method HandleImport(delivery: Delivery<ImportData>)
      modifies this`importStatus, this`importButton, this`selectedBackup, this`fileInfo, this`sent
      ensures old(selectedBackup).None? ==>
        && importStatus == old(importStatus) && importButton == old(importButton)
        && selectedBackup == old(selectedBackup) && fileInfo == old(fileInfo) && sent == old(sent)
      ensures old(selectedBackup).Some? ==>
        var failure := Failure(delivery, ImportTimeoutMs, "Failed to import backup");
        && sent == old(sent) + [Request("importBackup", None)]
        && importButton == Button(selectedBackup.None?, "Import Backup")
        && (failure.None? ==>
              importStatus == Succeeded(ImportSummary(delivery.response.value.data))
              && selectedBackup.None? && fileInfo == NoFile)
        && (failure.Some? ==>
              importStatus == Errored(ImportFailureText(failure.value))
              && selectedBackup == old(selectedBackup) && fileInfo == old(fileInfo))
    {
      if selectedBackup.None? {
        return;
      }
      sent := sent + [Request("importBackup", None)];
      var failure := Failure(delivery, ImportTimeoutMs, "Failed to import backup");
      if failure.None? {
        importStatus := Succeeded(ImportSummary(delivery.response.value.data));
        fileInfo := NoFile;
        selectedBackup := None;
      } else {
        importStatus := Errored(ImportFailureText(failure.value));
      }
      importButton := Button(selectedBackup.None?, "Import Backup");
    }

    /** `handleExport`: the button is enabled again afterwards, whatever the count. */
    method HandleExport(delivery: Delivery<ExportData>)
      modifies this`exportStatus, this`exportButton, this`sent
      ensures sent == old(sent) + [Request("exportBackup", None)]
      ensures exportButton == Button(false, "Export Backup")
      ensures var failure := Failure(delivery, ExportTimeoutMs, "Failed to create backup");
        exportStatus == if failure.None?
                        then Succeeded([BackedUp(delivery.response.value.data.count,
                                                 delivery.response.value.data.filename)])
                        else Errored(ExportFailureText(failure.value))
    {
      sent := sent + [Request("exportBackup", None)];
      var failure := Failure(delivery, ExportTimeoutMs, "Failed to create backup");
      if failure.None? {
        var data := delivery.response.value.data;
        exportStatus := Succeeded([BackedUp(data.count, data.filename)]);
      } else {
        exportStatus := Errored(ExportFailureText(failure.value));
      }
      exportButton := Button(false, "Export Backup");
    }

    /** `handleRecreate`: the button is enabled again afterwards, whatever the count. */
    method HandleRecreate(delivery: Delivery<RecreateData>)
      modifies this`recreateStatus, this`recreateButton, this`sent
      ensures sent == old(sent) + [Request("recreateSuspendedTabs", None)]
      ensures recreateButton == Button(false, "Recreate Suspended Tabs")
      ensures var failure := Failure(delivery, BulkTimeoutMs, "Failed to recreate suspended tabs");
        recreateStatus == if failure.None?
                          then Succeeded(RecreateHeadline(delivery.response.value.data)
                                         + RecreateDetails(delivery.response.value.data.errors))
                          else Errored(RecreateFailureText(failure.value))
    {
      sent := sent + [Request("recreateSuspendedTabs", None)];
      var failure := Failure(delivery, BulkTimeoutMs, "Failed to recreate suspended tabs");
      if failure.None? {
        var message := RecreateSummary(delivery.response.value.data);
        recreateStatus := Succeeded(message);
      } else {
        recreateStatus := Errored(RecreateFailureText(failure.value));
      }
      recreateButton := Button(false, "Recreate Suspended Tabs");
    }

    /** `handleSuspendAll` */
    method HandleSuspendAll(delivery: Delivery<SuspendAllData>)
      modifies this`suspendAllStatus, this`suspendAllButton, this`sent
      ensures sent == old(sent) + [Request("suspendAllButActive", None)]
      ensures suspendAllButton == Button(false, "Suspend All But Active")
      ensures var failure := Failure(delivery, BulkTimeoutMs, "Failed to suspend tabs");
        && (failure.Some? ==> suspendAllStatus == Errored(SuspendAllFailureText(failure.value)))
        && (failure.None? ==>
              var data := delivery.response.value.data;
              suspendAllStatus == Succeeded([SuspendedOf(data.suspendedCount, data.totalTabs)]
                + (if data.skippedCount > 0 then [SkippedTabs(data.skippedCount)] else [])
                + (if |data.errors| > 0 then ErrorList(data.errors) else [])))
    {
      sent := sent + [Request("suspendAllButActive", None)];
      var failure := Failure(delivery, BulkTimeoutMs, "Failed to suspend tabs");
      if failure.None? {
        var message := SuspendAllSummary(delivery.response.value.data);
        suspendAllStatus := Succeeded(message);
      } else {
        suspendAllStatus := Errored(SuspendAllFailureText(failure.value));
      }
      suspendAllButton := Button(false, "Suspend All But Active");
    }

    /** `handleUnsuspendAll` */
    method HandleUnsuspendAll(delivery: Delivery<UnsuspendAllData>)
      modifies this`unsuspendAllStatus, this`unsuspendAllButton, this`sent
      ensures sent == old(sent) + [Request("unsuspendAllTabs", None)]
      ensures unsuspendAllButton == Button(false, "Unsuspend All Tabs")
      ensures var failure := Failure(delivery, BulkTimeoutMs, "Failed to unsuspend tabs");
        && (failure.Some? ==> unsuspendAllStatus == Errored(UnsuspendAllFailureText(failure.value)))
        && (failure.None? ==>
              var data := delivery.response.value.data;
              unsuspendAllStatus == Succeeded([UnsuspendedOf(data.unsuspendedCount, data.totalSuspendedTabs)]
                + (if |data.errors| > 0 then ErrorList(data.errors) else [])))
    {
      sent := sent + [Request("unsuspendAllTabs", None)];
      var failure := Failure(delivery, BulkTimeoutMs, "Failed to unsuspend tabs");
      if failure.None? {
        var message := UnsuspendAllSummary(delivery.response.value.data);
        unsuspendAllStatus := Succeeded(message);
      } else {
        unsuspendAllStatus := Errored(UnsuspendAllFailureText(failure.value));
      }
      unsuspendAllButton := Button(false, "Unsuspend All Tabs");
    }

    /** `updatePageHeader` */
    method UpdatePageHeader(sectionId: string)
      modifies this`header
      ensures header == PageHeader(sectionId)
    {
      header := PageHeader(sectionId);
    }
  }
}
