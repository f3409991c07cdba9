/**
 * The options page's check of a selected backup file: a `.json` name, a
 * readable and parsable content, a truthy object-typed `suspendedTabs`,
 * and the counts shown for an accepted file (tabs, groups, tabs in groups).
 * Reading the file and `JSON.parse` are inputs: the file arrives already
 * read and parsed, or with the failure that occurred.
 */
module OptionsBackup {

  import opened Strings
  import opened Json

  datatype Content = Unreadable | Malformed(parseError: string) | Parsed(doc: Value)

  datatype File = File(name: string, content: Content)

  /** Why a file is refused; each is an Error caught by the handler. */
  datatype Rejection =
    | NotJsonFile             // "Please select a JSON backup file"
    | ReadFailed              // "Failed to read file"
    | ParseFailed(message: string)  // the message of JSON.parse's SyntaxError
    | NullAccess              // a property read on `null` (the document or one of its tabs)
    | InvalidFormat           // "Invalid backup file format"

  /** `backupData.suspendedTabs && typeof backupData.suspendedTabs === 'object'` */
  function HasSuspendedTabs(doc: Value): (b: bool)
    ensures b <==> (doc.Obj? && Member(doc.members, "suspendedTabs").Some?
                    && (Member(doc.members, "suspendedTabs").value.Obj?
                        || Member(doc.members, "suspendedTabs").value.Arr?))
  {
    var a := Get(doc, "suspendedTabs");
    a.Read? && TruthyOpt(a.value) && IsObjectType(a.value.value)
  }

  /** The `suspendedTabs` of a document that has them: an object or an array. */
  function SuspendedTabs(doc: Value): (t: Value)
    requires HasSuspendedTabs(doc)
    ensures t.Obj? || t.Arr?
  {
    Get(doc, "suspendedTabs").value.value
  }

  /** `backupData.tabGroups ? Object.keys(backupData.tabGroups).length : 0` */
  function GroupCount(doc: Value): (n: nat)
    requires doc.Obj?
    ensures !TruthyOpt(Get(doc, "tabGroups").value) ==> n == 0
    ensures TruthyOpt(Get(doc, "tabGroups").value) ==> n == KeyCount(Get(doc, "tabGroups").value.value)
  {
    var g := Get(doc, "tabGroups").value;
    if TruthyOpt(g) then KeyCount(g.value) else 0
  }

  /** `tabInfo.groupInfo` is truthy, for an entry that is not `null`. */
  predicate InGroup(v: Value)
    requires !v.Null?
  {
    TruthyOpt(Get(v, "groupInfo").value)
  }

  predicate NoNull(values: seq<Value>)
  {
    forall i :: 0 <= i < |values| ==> !values[i].Null?
  }

  /** The number of entries with a truthy `groupInfo`. */
  function GroupedCount(values: seq<Value>): (n: nat)
    requires NoNull(values)
    ensures n <= |values|
    ensures n == 0 <==> forall i :: 0 <= i < |values| ==> !InGroup(values[i])
  {
    if |values| == 0 then 0
    else
      var init := values[..|values| - 1];
      assert forall i :: 0 <= i < |init| ==> init[i] == values[i];
      GroupedCount(init) + (if InGroup(values[|values| - 1]) then 1 else 0)
  }

  /**
   * Lines 198-203: counts the entries whose `groupInfo` is truthy; reading
   * `groupInfo` of a `null` entry throws.
   */
  method CountTabsInGroups(values: seq<Value>) returns (threw: bool, count: nat)
    ensures threw <==> !NoNull(values)
    ensures !threw ==> count == GroupedCount(values)
  {
    count := 0;
    var i := 0;
    while i < |values|
      invariant 0 <= i <= |values|
      invariant NoNull(values[..i])
      invariant count == GroupedCount(values[..i])
    {
      if values[i].Null? {
        return true, count;
      }
      assert values[..i + 1][..i] == values[..i];
      if InGroup(values[i]) {
        count := count + 1;
      }
      i := i + 1;
    }
    assert values[..i] == values;
    threw := false;
  }

  /** The files the page accepts. */
  function Acceptable(file: File): (b: bool)
    ensures b ==> |file.name| >= 5 && file.content.Parsed? && file.content.doc.Obj?
  {
    && EndsWith(file.name, ".json")
    && file.content.Parsed?
    && HasSuspendedTabs(file.content.doc)
    && NoNull(Values(SuspendedTabs(file.content.doc)))
  }

  datatype Verdict =
    | Accepted(doc: Value, tabCount: nat, groupCount: nat, tabsInGroups: nat)
    | Rejected(reason: Rejection)

  /**
   * Lines 179-203: the checks in the order the handler makes them, and the
   * counts of an accepted file.
   */
  method ValidateFile(file: File) returns (v: Verdict)
    ensures v.Accepted? <==> Acceptable(file)
    ensures !EndsWith(file.name, ".json") ==> v == Rejected(NotJsonFile)
    ensures EndsWith(file.name, ".json") && file.content.Unreadable? ==> v == Rejected(ReadFailed)
    ensures EndsWith(file.name, ".json") && file.content.Malformed? ==> v == Rejected(ParseFailed(file.content.parseError))
    ensures EndsWith(file.name, ".json") && file.content.Parsed? && file.content.doc.Null? ==> v == Rejected(NullAccess)
    ensures (EndsWith(file.name, ".json") && file.content.Parsed? && !file.content.doc.Null?
             && !HasSuspendedTabs(file.content.doc)) ==> v == Rejected(InvalidFormat)
    ensures (EndsWith(file.name, ".json") && file.content.Parsed? && HasSuspendedTabs(file.content.doc)
             && !NoNull(Values(SuspendedTabs(file.content.doc)))) ==> v == Rejected(NullAccess)
    ensures v.Accepted? ==>
      var doc := file.content.doc;
      && v.doc == doc
      && v.tabCount == KeyCount(SuspendedTabs(doc))
      && v.groupCount == GroupCount(doc)
      && v.tabsInGroups == GroupedCount(Values(SuspendedTabs(doc)))
      && v.tabsInGroups <= v.tabCount
  {
    if !EndsWith(file.name, ".json") {
      return Rejected(NotJsonFile);
    }
    match file.content
    case Unreadable =>
      return Rejected(ReadFailed);
    case Malformed(message) =>
      return Rejected(ParseFailed(message));
    case Parsed(doc) =>
      var tabs := Get(doc, "suspendedTabs");
      if tabs.Throws? {
        return Rejected(NullAccess);
      }
      if !TruthyOpt(tabs.value) || !IsObjectType(tabs.value.value) {
        return Rejected(InvalidFormat);
      }
      var tabCount := KeyCount(tabs.value.value);
      var groupCount := GroupCount(doc);
      var threw, tabsInGroups := CountTabsInGroups(Values(tabs.value.value));
      if threw {
        return Rejected(NullAccess);
      }
      v := Accepted(doc, tabCount, groupCount, tabsInGroups);
  }
}
