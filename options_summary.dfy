/**
 * How the options page turns a background reply into a status message:
 * the failure text of each handler, the truncated error list ("first 3,
 * then '... and N more errors'"), the warnings of a recreation (entries
 * mentioning "Warning:", at most 2, prefix stripped), and the page header
 * chosen for a navigation section. A message is the sequence of its lines;
 * the HTML markup around them is not modelled.
 */
module OptionsSummary {

  import opened Wrappers
  import opened Strings

  datatype Line =
    | Created(created: nat, total: nat)            // "Successfully created X of Y suspended tabs!"
    | GroupsCreated(groups: nat)                   // "Created N tab groups ..."
    | NoGroupInfo                                  // "Note: Group information was not available ..."
    | SuspendedOf(suspended: nat, total: nat)      // "Successfully suspended X of Y tabs!"
    | SkippedTabs(skipped: nat)                    // "Skipped N tabs (...)"
    | UnsuspendedOf(unsuspended: nat, total: nat)  // "Successfully unsuspended X of Y tabs!"
    | Imported(restored: nat)                      // "N suspended tabs restored"
    | GroupsDetected(groups: nat)                  // "N tab groups detected ..."
    | FromBackup(timestamp: Option<string>)        // "From backup: <date>" or "Unknown date"
    | BackedUp(count: nat, filename: string)       // "N tabs backed up to: <file>"
    | WarningsHeading                              // "Group Recreation Info:"
    | ErrorsHeading                                // "Errors:"
    | Bullet(text: string)                         // "• <text>"
    | MoreErrors(hidden: nat)                      // "• ... and N more errors"

  // ---------------------------------------------------------------------
  // Failure texts

  /**
   * The status text of a handler whose request failed with `message`.
   * Handlers that recognise an empty store test for it before the timeout.
   */
  function FailureText(message: string, nothingText: Option<string>, timeoutText: string, prefix: string): (t: string)
    ensures nothingText.Some? && Contains(message, "No suspended tabs") ==> t == nothingText.value
    ensures (nothingText.None? || !Contains(message, "No suspended tabs")) && Contains(message, "timeout") ==> t == timeoutText
    ensures (nothingText.None? || !Contains(message, "No suspended tabs")) && !Contains(message, "timeout") ==> t == prefix + message
  {
    if nothingText.Some? && Contains(message, "No suspended tabs") then nothingText.value
    else if Contains(message, "timeout") then timeoutText
    else prefix + message
  }

  function ExportFailureText(message: string): string
  {
    FailureText(message, Some("No suspended tabs found to backup. Please suspend some tabs first."),
                "Export timed out. Please try again.", "Export failed: ")
  }

  function ImportFailureText(message: string): string
  {
    FailureText(message, None, "Import timed out. Please try again.", "Import failed: ")
  }

  function RecreateFailureText(message: string): string
  {
    FailureText(message, Some("No suspended tabs found to recreate. Please import a backup first."),
                "Recreation timed out. Some tabs may have been created successfully.", "Recreation failed: ")
  }

  function SuspendAllFailureText(message: string): string
  {
    FailureText(message, None, "Operation timed out. Some tabs may have been suspended successfully.",
                "Suspension failed: ")
  }

  function UnsuspendAllFailureText(message: string): string
  {
    FailureText(message, None, "Operation timed out. Some tabs may have been unsuspended successfully.",
                "Unsuspension failed: ")
  }

  // ---------------------------------------------------------------------
  // Lines of a message

  /** The bullet lines for `texts`, in order. */
  function Bullets(texts: seq<string>): (lines: seq<Line>)
    ensures |lines| == |texts|
    ensures forall i :: 0 <= i < |texts| ==> lines[i] == Bullet(texts[i])
  {
    seq(|texts|, i requires 0 <= i < |texts| => Bullet(texts[i]))
  }

  /** The texts of the bullet lines of a message, in order. */
  function BulletTexts(lines: seq<Line>): seq<string>
  {
    if |lines| == 0 then []
    else (if lines[0].Bullet? then [lines[0].text] else []) + BulletTexts(lines[1..])
  }

  /** The number of errors a message says it leaves out. */
  function HiddenCount(lines: seq<Line>): nat
  {
    if |lines| == 0 then 0
    else (if lines[0].MoreErrors? then lines[0].hidden else 0) + HiddenCount(lines[1..])
  }

  lemma {:induction false} BulletTextsAppend(a: seq<Line>, b: seq<Line>)
    ensures BulletTexts(a + b) == BulletTexts(a) + BulletTexts(b)
    ensures HiddenCount(a + b) == HiddenCount(a) + HiddenCount(b)
  {
    if |a| > 0 {
      assert (a + b)[1..] == a[1..] + b;
      BulletTextsAppend(a[1..], b);
    } else {
      assert a + b == b;
    }
  }

  lemma {:induction false} BulletTextsOfBullets(texts: seq<string>)
    ensures BulletTexts(Bullets(texts)) == texts
    ensures HiddenCount(Bullets(texts)) == 0
  {
    if |texts| > 0 {
      assert Bullets(texts)[1..] == Bullets(texts[1..]);
      BulletTextsOfBullets(texts[1..]);
    }
  }

  function Min(a: nat, b: nat): nat
  {
    if a < b then a else b
  }

  /** Lines 360-368 (and 435-443, 502-510): a heading, the first 3 errors, then how many more. */
  function ErrorList(errors: seq<string>): (r: seq<Line>)
    ensures |r| == 1 + Min(3, |errors|) + (if |errors| > 3 then 1 else 0)
    ensures r[0] == ErrorsHeading
    ensures |errors| > 3 ==> r[|r| - 1] == MoreErrors(|errors| - 3)
  {
    [ErrorsHeading] + Bullets(errors[..Min(3, |errors|)])
      + (if |errors| > 3 then [MoreErrors(|errors| - 3)] else [])
  }

  /**
   * An error list shows the first errors, at most 3 of them, in order, and
   * accounts for every other one in its "more errors" line, which appears
   * exactly when something is left out.
   */
  lemma ErrorListAccounts(errors: seq<string>)
    ensures BulletTexts(ErrorList(errors)) == errors[..Min(3, |errors|)]
    ensures |BulletTexts(ErrorList(errors))| <= 3
    ensures |BulletTexts(ErrorList(errors))| + HiddenCount(ErrorList(errors)) == |errors|
    ensures (exists i :: 0 <= i < |ErrorList(errors)| && ErrorList(errors)[i].MoreErrors?) <==> |errors| > 3
  {
    var shown := errors[..Min(3, |errors|)];
    var tail: seq<Line> := if |errors| > 3 then [MoreErrors(|errors| - 3)] else [];
    BulletTextsAppend([ErrorsHeading], Bullets(shown));
    BulletTextsAppend([ErrorsHeading] + Bullets(shown), tail);
    BulletTextsOfBullets(shown);
    assert BulletTexts([ErrorsHeading]) == [] by {
      assert [ErrorsHeading][1..] == [];
    }
    assert HiddenCount([ErrorsHeading]) == 0 by {
      assert [ErrorsHeading][1..] == [];
    }
    if |errors| > 3 {
      assert BulletTexts(tail) == [] && HiddenCount(tail) == |errors| - 3 by {
        assert tail[1..] == [];
      }
      assert ErrorList(errors)[|ErrorList(errors)| - 1].MoreErrors?;
    }
  }

  /** `errors.filter(e => e.includes('Warning:'))` */
  function Warnings(errors: seq<string>): (ws: seq<string>)
    ensures |ws| <= |errors|
    ensures forall i :: 0 <= i < |ws| ==> Contains(ws[i], "Warning:")
    ensures multiset(ws) <= multiset(errors)
  {
    if |errors| == 0 then []
    else
      assert errors == [errors[0]] + errors[1..];
      (if Contains(errors[0], "Warning:") then [errors[0]] else []) + Warnings(errors[1..])
  }

  /** `errors.filter(e => !e.includes('Warning:'))` */
  function ActualErrors(errors: seq<string>): (es: seq<string>)
    ensures |es| <= |errors|
    ensures forall i :: 0 <= i < |es| ==> !Contains(es[i], "Warning:")
    ensures multiset(es) <= multiset(errors)
  {
    if |errors| == 0 then []
    else
      assert errors == [errors[0]] + errors[1..];
      (if Contains(errors[0], "Warning:") then [] else [errors[0]]) + ActualErrors(errors[1..])
  }

  /** Every error is either a warning or an actual error, never both, and none is lost. */
  lemma {:induction false} WarningsPartition(errors: seq<string>)
    ensures multiset(Warnings(errors)) + multiset(ActualErrors(errors)) == multiset(errors)
    ensures |Warnings(errors)| + |ActualErrors(errors)| == |errors|
  {
    if |errors| > 0 {
      var x, rest := errors[0], errors[1..];
      assert errors == [x] + rest;
      assert multiset(errors) == multiset{x} + multiset(rest);
      WarningsPartition(rest);
      if Contains(x, "Warning:") {
        assert Warnings(errors) == [x] + Warnings(rest);
        assert multiset(Warnings(errors)) == multiset{x} + multiset(Warnings(rest));
        assert ActualErrors(errors) == ActualErrors(rest);
      } else {
        assert Warnings(errors) == Warnings(rest);
        assert ActualErrors(errors) == [x] + ActualErrors(rest);
        assert multiset(ActualErrors(errors)) == multiset{x} + multiset(ActualErrors(rest));
      }
    }
  }

  /** A single error is kept by exactly one of the filters, the one it passes. */
  lemma FiltersOfOne(e: string)
    ensures Warnings([e]) == (if Contains(e, "Warning:") then [e] else [])
    ensures ActualErrors([e]) == (if Contains(e, "Warning:") then [] else [e])
  {
  }

  /** Both filters keep the errors' order: filtering a concatenation filters each part in turn. */
  lemma {:induction false} FiltersKeepOrder(a: seq<string>, b: seq<string>)
    ensures Warnings(a + b) == Warnings(a) + Warnings(b)
    ensures ActualErrors(a + b) == ActualErrors(a) + ActualErrors(b)
  {
    if |a| == 0 {
      assert a + b == b;
    } else {
      var ab := a + b;
      assert ab[0] == a[0];
      assert ab[1..] == a[1..] + b;
      FiltersKeepOrder(a[1..], b);
      var w: seq<string> := if Contains(a[0], "Warning:") then [a[0]] else [];
      var e: seq<string> := if Contains(a[0], "Warning:") then [] else [a[0]];
      assert Warnings(ab) == w + Warnings(ab[1..]);
      assert Warnings(a) == w + Warnings(a[1..]);
      AppendAssociative(w, Warnings(a[1..]), Warnings(b));
      assert ActualErrors(ab) == e + ActualErrors(ab[1..]);
      assert ActualErrors(a) == e + ActualErrors(a[1..]);
      AppendAssociative(e, ActualErrors(a[1..]), ActualErrors(b));
    }
  }

  /** `warning.replace('Warning: ', '')` */
  function StripWarning(w: string): (r: string)
    ensures StartsWith(w, "Warning: ") ==> r == w[9..]
    ensures !Contains(w, "Warning: ") ==> r == w
  {
    ReplaceFirst(w, "Warning: ", "")
  }

  function Stripped(ws: seq<string>): (r: seq<string>)
    ensures |r| == |ws|
    ensures forall i :: 0 <= i < |ws| ==> r[i] == StripWarning(ws[i])
  {
    seq(|ws|, i requires 0 <= i < |ws| => StripWarning(ws[i]))
  }

  /** Lines 352-357: a heading and the first 2 warnings without their prefix. */
  function WarningList(ws: seq<string>): (r: seq<Line>)
    ensures |r| == 1 + Min(2, |ws|)
    ensures r[0] == WarningsHeading
  {
    [WarningsHeading] + Bullets(Stripped(ws[..Min(2, |ws|)]))
  }

  /** A warning list shows at most 2 warnings, in order, each without its "Warning: " prefix. */
  lemma WarningListShows(ws: seq<string>)
    ensures |BulletTexts(WarningList(ws))| == Min(2, |ws|)
    ensures forall i :: 0 <= i < Min(2, |ws|) ==> BulletTexts(WarningList(ws))[i] == StripWarning(ws[i])
    ensures forall i :: 0 <= i < Min(2, |ws|) && StartsWith(ws[i], "Warning: ") ==>
      BulletTexts(WarningList(ws))[i] == ws[i][9..]
    ensures HiddenCount(WarningList(ws)) == 0
  {
    var shown := Stripped(ws[..Min(2, |ws|)]);
    BulletTextsAppend([WarningsHeading], Bullets(shown));
    BulletTextsOfBullets(shown);
    assert [WarningsHeading][1..] == [];
  }

  // ---------------------------------------------------------------------
  // Building the messages (the `message +=` accumulation of the handlers)

  /** Appends the error list: heading, up to 3 bullets, then the "more errors" line. */
  method AppendErrors(message: seq<Line>, errors: seq<string>) returns (out: seq<Line>)
    ensures out == message + ErrorList(errors)
  {
    out := message + [ErrorsHeading];
    var n := Min(3, |errors|);
    for i := 0 to n
      invariant out == message + [ErrorsHeading] + Bullets(errors[..i])
    {
      out := out + [Bullet(errors[i])];
    }
    if |errors| > 3 {
      out := out + [MoreErrors(|errors| - 3)];
    }
  }

  lemma BulletsSnoc(texts: seq<string>, t: string)
    ensures Bullets(texts + [t]) == Bullets(texts) + [Bullet(t)]
  {
  }

  lemma StrippedSnoc(ws: seq<string>, i: nat)
    requires i < |ws|
    ensures Stripped(ws[..i + 1]) == Stripped(ws[..i]) + [StripWarning(ws[i])]
  {
  }

  /** Appends the warning list: heading and up to 2 stripped bullets. */
  method AppendWarnings(message: seq<Line>, warnings: seq<string>) returns (out: seq<Line>)
    ensures out == message + WarningList(warnings)
  {
    var head := message + [WarningsHeading];
    out := head;
    var n := Min(2, |warnings|);
    for i := 0 to n
      invariant out == head + Bullets(Stripped(warnings[..i]))
    {
      var line := Bullet(StripWarning(warnings[i]));
      StrippedSnoc(warnings, i);
      BulletsSnoc(Stripped(warnings[..i]), StripWarning(warnings[i]));
      AppendAssociative(head, Bullets(Stripped(warnings[..i])), [line]);
      out := out + [line];
    }
    AppendAssociative(message, [WarningsHeading], Bullets(Stripped(warnings[..n])));
  }

  datatype RecreateData = RecreateData(createdCount: nat, totalCount: nat, groupsCreated: nat, errors: seq<string>)
  datatype SuspendAllData = SuspendAllData(suspendedCount: nat, skippedCount: nat, totalTabs: nat, errors: seq<string>)
  datatype UnsuspendAllData = UnsuspendAllData(unsuspendedCount: nat, totalSuspendedTabs: nat, errors: seq<string>)
  datatype ImportData = ImportData(restoredCount: nat, groupsAvailable: nat, backupTimestamp: string)
  datatype ExportData = ExportData(count: nat, filename: string, timestamp: string)

  lemma AppendAssociative<T>(a: seq<T>, b: seq<T>, c: seq<T>)
    ensures a + b + c == a + (b + c)
  {
  }

  /** The headline and the group line of a recreation message. */
  function RecreateHeadline(data: RecreateData): seq<Line>
  {
    [Created(data.createdCount, data.totalCount),
     if data.groupsCreated > 0 then GroupsCreated(data.groupsCreated) else NoGroupInfo]
  }

  /** The warnings and then the actual errors of a recreation, each part only when non-empty. */
  function RecreateDetails(errors: seq<string>): seq<Line>
  {
    var ws, es := Warnings(errors), ActualErrors(errors);
    (if |ws| > 0 then WarningList(ws) else []) + (if |es| > 0 then ErrorList(es) else [])
  }

  /** Lines 335-371: the success message of a recreation. */
  method RecreateSummary(data: RecreateData) returns (message: seq<Line>)
    ensures message == RecreateHeadline(data) + RecreateDetails(data.errors)
  {
    message := [Created(data.createdCount, data.totalCount)];
    if data.groupsCreated > 0 {
      message := message + [GroupsCreated(data.groupsCreated)];
    } else {
      message := message + [NoGroupInfo];
    }
    assert message == RecreateHeadline(data);
    if |data.errors| > 0 {
      var warnings := Warnings(data.errors);
      var actualErrors := ActualErrors(data.errors);
      ghost var wl: seq<Line> := if |warnings| > 0 then WarningList(warnings) else [];
      ghost var el: seq<Line> := if |actualErrors| > 0 then ErrorList(actualErrors) else [];
      if |warnings| > 0 {
        message := AppendWarnings(message, warnings);
      }
      assert message == RecreateHeadline(data) + wl;
      if |actualErrors| > 0 {
        message := AppendErrors(message, actualErrors);
      }
      assert RecreateDetails(data.errors) == wl + el;
      AppendAssociative(RecreateHeadline(data), wl, el);
    } else {
      assert RecreateDetails(data.errors) == [];
      assert message == RecreateHeadline(data) + [];
    }
  }

  /** Lines that are neither bullets nor a "more errors" line account for no error. */
  lemma {:induction false} PlainLinesAccountNothing(lines: seq<Line>)
    requires forall i :: 0 <= i < |lines| ==> !lines[i].Bullet? && !lines[i].MoreErrors?
    ensures BulletTexts(lines) == [] && HiddenCount(lines) == 0
  {
    if |lines| > 0 {
      PlainLinesAccountNothing(lines[1..]);
    }
  }

  lemma HeadlineHasNoBullets(data: RecreateData)
    ensures BulletTexts(RecreateHeadline(data)) == [] && HiddenCount(RecreateHeadline(data)) == 0
  {
    var head := RecreateHeadline(data);
    assert forall i :: 0 <= i < |head| ==> !head[i].Bullet? && !head[i].MoreErrors?;
    PlainLinesAccountNothing(head);
  }

  /** A headline followed by the error list (when there are errors) accounts for exactly those errors. */
  lemma ErrorsAfterPlainLines(head: seq<Line>, errors: seq<string>)
    requires forall i :: 0 <= i < |head| ==> !head[i].Bullet? && !head[i].MoreErrors?
    ensures var message := head + (if |errors| > 0 then ErrorList(errors) else []);
      && BulletTexts(message) == errors[..Min(3, |errors|)]
      && HiddenCount(message) == (if |errors| > 3 then |errors| - 3 else 0)
  {
    PlainLinesAccountNothing(head);
    var tail: seq<Line> := if |errors| > 0 then ErrorList(errors) else [];
    BulletTextsAppend(head, tail);
    if |errors| > 0 {
      ErrorListAccounts(errors);
    } else {
      assert errors[..0] == [];
    }
  }

  lemma {:induction false} DetailsAccount(ws: seq<string>, es: seq<string>)
    ensures var details := (if |ws| > 0 then WarningList(ws) else []) + (if |es| > 0 then ErrorList(es) else []);
      && BulletTexts(details) == Stripped(ws[..Min(2, |ws|)]) + es[..Min(3, |es|)]
      && HiddenCount(details) == (if |es| > 3 then |es| - 3 else 0)
  {
    var wl: seq<Line> := if |ws| > 0 then WarningList(ws) else [];
    var el: seq<Line> := if |es| > 0 then ErrorList(es) else [];
    BulletTextsAppend(wl, el);
    WarningListShows(ws);
    ErrorListAccounts(es);
    if |ws| == 0 {
      assert Stripped(ws[..0]) == [];
    } else {
      assert BulletTexts(wl) == Stripped(ws[..Min(2, |ws|)]);
    }
    if |es| == 0 {
      assert es[..0] == [];
    }
  }

  /**
   * A recreation message shows at most 2 warnings and 3 actual errors, in
   * order, counts the actual errors it leaves out, and every reported error
   * is either a warning or an actual error.
   */
  lemma RecreateMessageAccounts(data: RecreateData)
    ensures var message, ws, es := RecreateHeadline(data) + RecreateDetails(data.errors),
                                   Warnings(data.errors), ActualErrors(data.errors);
      && BulletTexts(message) == Stripped(ws[..Min(2, |ws|)]) + es[..Min(3, |es|)]
      && HiddenCount(message) == (if |es| > 3 then |es| - 3 else 0)
      && |ws| + |es| == |data.errors|
  {
    var ws, es := Warnings(data.errors), ActualErrors(data.errors);
    WarningsPartition(data.errors);
    BulletTextsAppend(RecreateHeadline(data), RecreateDetails(data.errors));
    HeadlineHasNoBullets(data);
    DetailsAccount(ws, es);
  }

  /**
   * The success message of "suspend all but active": the headline, the
   * skipped line only when tabs were skipped, and the error list.
   */
  method SuspendAllSummary(data: SuspendAllData) returns (message: seq<Line>)
    ensures message == [SuspendedOf(data.suspendedCount, data.totalTabs)]
      + (if data.skippedCount > 0 then [SkippedTabs(data.skippedCount)] else [])
      + (if |data.errors| > 0 then ErrorList(data.errors) else [])
    ensures message[0] == SuspendedOf(data.suspendedCount, data.totalTabs)
    ensures (|message| > 1 && message[1].SkippedTabs?) <==> data.skippedCount > 0
    ensures BulletTexts(message) == data.errors[..Min(3, |data.errors|)]
    ensures HiddenCount(message) == (if |data.errors| > 3 then |data.errors| - 3 else 0)
  {
    message := [SuspendedOf(data.suspendedCount, data.totalTabs)];
    if data.skippedCount > 0 {
      message := message + [SkippedTabs(data.skippedCount)];
    }
    ghost var head := message;
    if |data.errors| > 0 {
      message := AppendErrors(message, data.errors);
    }
    ErrorsAfterPlainLines(head, data.errors);
  }

  /** The success message of "unsuspend all": the headline and the error list. */
  method UnsuspendAllSummary(data: UnsuspendAllData) returns (message: seq<Line>)
    ensures message == [UnsuspendedOf(data.unsuspendedCount, data.totalSuspendedTabs)]
      + (if |data.errors| > 0 then ErrorList(data.errors) else [])
    ensures message[0] == UnsuspendedOf(data.unsuspendedCount, data.totalSuspendedTabs)
    ensures BulletTexts(message) == data.errors[..Min(3, |data.errors|)]
    ensures HiddenCount(message) == (if |data.errors| > 3 then |data.errors| - 3 else 0)
  {
    message := [UnsuspendedOf(data.unsuspendedCount, data.totalSuspendedTabs)];
    ghost var head := message;
    if |data.errors| > 0 {
      message := AppendErrors(message, data.errors);
    }
    ErrorsAfterPlainLines(head, data.errors);
  }

  /** The success message of an import; the date formatting is not modelled. */
  function ImportSummary(data: ImportData): (message: seq<Line>)
    ensures |message| >= 2 && message[0] == Imported(data.restoredCount)
    ensures GroupsDetected(data.groupsAvailable) in message <==> data.groupsAvailable > 0
  {
    [Imported(data.restoredCount)]
      + (if data.groupsAvailable > 0 then [GroupsDetected(data.groupsAvailable)] else [])
      + [FromBackup(if data.backupTimestamp != "" then Some(data.backupTimestamp) else None)]
  }

  // ---------------------------------------------------------------------
  // Page header

  datatype Header = Header(title: string, description: string)

  const BackupHeader: Header := Header("Backup & Restore",
    "Backup your suspended tabs to protect against extension reloads")

  /** `headerInfo[sectionId] || headerInfo.backup` */
  function PageHeader(sectionId: string): (h: Header)
    ensures sectionId != "bulk" && sectionId != "settings" ==> h == BackupHeader
    ensures sectionId == "bulk" ==>
      h == Header("Bulk Operations", "Perform operations on multiple tabs at once for efficient tab management")
    ensures sectionId == "settings" ==>
      h == Header("Settings & Information", "Extension settings and helpful information about Tab Suspender")
    ensures h.title != "" && h.description != ""
  {
    if sectionId == "bulk" then
      Header("Bulk Operations", "Perform operations on multiple tabs at once for efficient tab management")
    else if sectionId == "settings" then
      Header("Settings & Information", "Extension settings and helpful information about Tab Suspender")
    else BackupHeader
  }
}
