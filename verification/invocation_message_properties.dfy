/**
 * What the status lines promise: previews are bounded and faithful, a
 * running line names the command and the path unambiguously and can never
 * be mistaken for a finished line, and the indicator agrees with the phrase.
 */
module InvocationMessageProperties {
  import opened Wrappers
  import opened ChatTypes
  import opened InvocationMessage

  // ---------------------------------------------------------------------
  // Previews

  /** For a usable bound, the text comes back unchanged exactly when it fits. */
  lemma TruncateUnchangedIff(text: String, maxLength: int)
    requires maxLength >= 3
    ensures TruncateText(text, maxLength) == text <==> |text| <= maxLength
  {
  }

  /** A cut text is its first `maxLength - 3` characters and an ellipsis. */
  lemma TruncateCut(text: String, maxLength: int)
    requires 3 <= maxLength < |text|
    ensures TruncateText(text, maxLength) == text[..maxLength - 3] + Ellipsis
    ensures |TruncateText(text, maxLength)| == maxLength
  {
  }

  /** Below 3 the ellipsis alone is what is shown, and it exceeds the bound. */
  lemma TruncateBelowThree(text: String, maxLength: int)
    requires maxLength < 3 && maxLength < |text|
    ensures TruncateText(text, maxLength) == Ellipsis
    ensures |TruncateText(text, maxLength)| > maxLength
  {
  }

  /** Truncating a preview again changes nothing, for every bound (below 3 "..." maps to itself). */
  lemma TruncateIdempotent(text: String, maxLength: int)
    ensures TruncateText(TruncateText(text, maxLength), maxLength) == TruncateText(text, maxLength)
  {
  }

  /** An absent old or new string previews exactly like the empty string. */
  lemma AbsentPreviewsAsEmpty()
    ensures Preview(None) == Preview(Some("")) == ""
  {
  }

  // ---------------------------------------------------------------------
  // Command labels

  /** Each `case` label of the editor's switch selects its own branch. */
  lemma EditorCommandLabels()
    ensures ClassifyEditorCommand("view") == View
    ensures ClassifyEditorCommand("create") == Create
    ensures ClassifyEditorCommand("str_replace") == StrReplace
    ensures ClassifyEditorCommand("insert") == Insert
    ensures ClassifyEditorCommand("undo_edit") == UndoEdit
  {
  }

  /** Each `case` label of the file manager's switch selects its own branch. */
  lemma FileManagerCommandLabels()
    ensures ClassifyFileManagerCommand("rename") == Rename
    ensures ClassifyFileManagerCommand("delete") == Delete
  {
  }

  // ---------------------------------------------------------------------
  // Reading a running line back

  /** The running line of an editor call, split back into command class and path. */
  function ParseEditorPendingLine(line: String): Option<(EditorCommand, String)> {
    if "Viewing " <= line then Some((View, line[|"Viewing "|..]))
    else if "Creating " <= line then Some((Create, line[|"Creating "|..]))
    else if "Editing " <= line then Some((StrReplace, line[|"Editing "|..]))
    else if "Updating " <= line then Some((Insert, line[|"Updating "|..]))
    else if "Undoing changes to " <= line then Some((UndoEdit, line[|"Undoing changes to "|..]))
    else if "Processing " <= line then Some((OtherEditorCommand, line[|"Processing "|..]))
    else None
  }

  /** The running line of a file-manager call, split back into command class and path. */
  function ParseFileManagerPendingLine(line: String): Option<(FileManagerCommand, String)> {
    if "Renaming " <= line then Some((Rename, line[|"Renaming "|..]))
    else if "Deleting " <= line then Some((Delete, line[|"Deleting "|..]))
    else if "Processing " <= line then Some((OtherFileManagerCommand, line[|"Processing "|..]))
    else None
  }

  lemma PrefixOfConcat(v: String, p: String)
    ensures v <= v + p && (v + p)[|v|..] == p
  {
    assert (v + p)[..|v|] == v;
  }

  lemma NotPrefixAt(v: String, line: String, i: nat)
    requires i < |v| && i < |line| && v[i] != line[i]
    ensures !(v <= line)
  {
  }

  /** A running editor line names its command (up to the default case) and its path. */
  lemma EditorPendingRoundTrip(args: StrReplaceEditorArgs, state: String)
    requires state != ResultState
    ensures ParseEditorPendingLine(FormatStrReplaceMessage(args, state))
         == Some((ClassifyEditorCommand(args.command), args.path))
  {
    var line := FormatStrReplaceMessage(args, state);
    var p := args.path;
    match ClassifyEditorCommand(args.command)
    case View => PrefixOfConcat("Viewing ", p);
    case Create =>
      PrefixOfConcat("Creating ", p);
      NotPrefixAt("Viewing ", line, 0);
    case StrReplace =>
      PrefixOfConcat("Editing ", p);
      NotPrefixAt("Viewing ", line, 0);
      NotPrefixAt("Creating ", line, 0);
    case Insert =>
      PrefixOfConcat("Updating ", p);
      NotPrefixAt("Viewing ", line, 0);
      NotPrefixAt("Creating ", line, 0);
      NotPrefixAt("Editing ", line, 0);
    case UndoEdit =>
      PrefixOfConcat("Undoing changes to ", p);
      NotPrefixAt("Viewing ", line, 0);
      NotPrefixAt("Creating ", line, 0);
      NotPrefixAt("Editing ", line, 0);
      NotPrefixAt("Updating ", line, 1);
    case OtherEditorCommand =>
      PrefixOfConcat("Processing ", p);
      NotPrefixAt("Viewing ", line, 0);
      NotPrefixAt("Creating ", line, 0);
      NotPrefixAt("Editing ", line, 0);
      NotPrefixAt("Updating ", line, 0);
      NotPrefixAt("Undoing changes to ", line, 0);
  }

  /** A finished editor line never reads as a running one, whatever its arguments. */
  lemma EditorFinishedNotPending(args: StrReplaceEditorArgs)
    ensures ParseEditorPendingLine(FormatStrReplaceMessage(args, ResultState)) == None
  {
    match ClassifyEditorCommand(args.command)
    case StrReplace => EditedLineNotPending(args);
    case Insert => UpdatedLineNotPending(args);
    case _ => PlainEditorLineNotPending(args);
  }

  lemma EditedLineNotPending(args: StrReplaceEditorArgs)
    requires ClassifyEditorCommand(args.command) == StrReplace
    ensures ParseEditorPendingLine(FormatStrReplaceMessage(args, ResultState)) == None
  {
    var line := FormatStrReplaceMessage(args, ResultState);
    assert line[0] == 'E' && line[4] == 'e';
    NotPrefixAt("Viewing ", line, 0);
    NotPrefixAt("Creating ", line, 0);
    NotPrefixAt("Editing ", line, 4);
    NotPrefixAt("Updating ", line, 0);
    NotPrefixAt("Undoing changes to ", line, 0);
    NotPrefixAt("Processing ", line, 0);
  }

  lemma UpdatedLineNotPending(args: StrReplaceEditorArgs)
    requires ClassifyEditorCommand(args.command) == Insert
    ensures ParseEditorPendingLine(FormatStrReplaceMessage(args, ResultState)) == None
  {
    var line := FormatStrReplaceMessage(args, ResultState);
    assert line[0] == 'U' && line[1] == 'p' && line[5] == 'e';
    NotPrefixAt("Viewing ", line, 0);
    NotPrefixAt("Creating ", line, 0);
    NotPrefixAt("Editing ", line, 0);
    NotPrefixAt("Updating ", line, 5);
    NotPrefixAt("Undoing changes to ", line, 1);
    NotPrefixAt("Processing ", line, 0);
  }

  lemma PlainEditorLineNotPending(args: StrReplaceEditorArgs)
    requires ClassifyEditorCommand(args.command) in {View, Create, UndoEdit, OtherEditorCommand}
    ensures ParseEditorPendingLine(FormatStrReplaceMessage(args, ResultState)) == None
  {
    var p := args.path;
    match ClassifyEditorCommand(args.command)
    case View => NoEditorVerb("Viewed ", p, 4, 0, 0, 0, 0, 0);
    case Create => NoEditorVerb("Created ", p, 0, 5, 0, 0, 0, 0);
    case UndoEdit => NoEditorVerb("Reverted changes to ", p, 0, 0, 0, 0, 0, 0);
    case OtherEditorCommand => NoEditorVerb("Modified ", p, 0, 0, 0, 0, 0, 0);
  }

  /** A line opening with a word that differs from each running editor verb at the given positions. */
  lemma NoEditorVerb(word: String, rest: String, i0: nat, i1: nat, i2: nat, i3: nat, i4: nat, i5: nat)
    requires i0 < |word| && i0 < |"Viewing "| && word[i0] != "Viewing "[i0]
    requires i1 < |word| && i1 < |"Creating "| && word[i1] != "Creating "[i1]
    requires i2 < |word| && i2 < |"Editing "| && word[i2] != "Editing "[i2]
    requires i3 < |word| && i3 < |"Updating "| && word[i3] != "Updating "[i3]
    requires i4 < |word| && i4 < |"Undoing changes to "| && word[i4] != "Undoing changes to "[i4]
    requires i5 < |word| && i5 < |"Processing "| && word[i5] != "Processing "[i5]
    ensures ParseEditorPendingLine(word + rest) == None
  {
    var line := word + rest;
    NotPrefixAt("Viewing ", line, i0);
    NotPrefixAt("Creating ", line, i1);
    NotPrefixAt("Editing ", line, i2);
    NotPrefixAt("Updating ", line, i3);
    NotPrefixAt("Undoing changes to ", line, i4);
    NotPrefixAt("Processing ", line, i5);
  }

  /** A running file-manager line names its command (up to the default case) and its path. */
  lemma FileManagerPendingRoundTrip(args: FileManagerArgs, state: String)
    requires state != ResultState
    ensures ParseFileManagerPendingLine(FormatFileManagerMessage(args, state))
         == Some((ClassifyFileManagerCommand(args.command), args.path))
  {
    var line := FormatFileManagerMessage(args, state);
    var p := args.path;
    match ClassifyFileManagerCommand(args.command)
    case Rename => PrefixOfConcat("Renaming ", p);
    case Delete =>
      PrefixOfConcat("Deleting ", p);
      NotPrefixAt("Renaming ", line, 0);
    case OtherFileManagerCommand =>
      PrefixOfConcat("Processing ", p);
      NotPrefixAt("Renaming ", line, 0);
      NotPrefixAt("Deleting ", line, 0);
  }

  /** A finished file-manager line never reads as a running one, whatever its arguments. */
  lemma FileManagerFinishedNotPending(args: FileManagerArgs)
    ensures ParseFileManagerPendingLine(FormatFileManagerMessage(args, ResultState)) == None
  {
    var p := args.path;
    match ClassifyFileManagerCommand(args.command)
    case Rename =>
      var rest := p + " to " + Interpolate(args.newPath);
      assert FormatFileManagerMessage(args, ResultState) == "Renamed " + rest;
      NoFileManagerVerb("Renamed ", rest, 5, 0, 0);
    case Delete => NoFileManagerVerb("Deleted ", p, 0, 5, 0);
    case OtherFileManagerCommand => NoFileManagerVerb("Modified ", p, 0, 0, 0);
  }

  /** A line opening with a word that differs from each running file-manager verb at the given positions. */
  lemma NoFileManagerVerb(word: String, rest: String, i0: nat, i1: nat, i2: nat)
    requires i0 < |word| && i0 < |"Renaming "| && word[i0] != "Renaming "[i0]
    requires i1 < |word| && i1 < |"Deleting "| && word[i1] != "Deleting "[i1]
    requires i2 < |word| && i2 < |"Processing "| && word[i2] != "Processing "[i2]
    ensures ParseFileManagerPendingLine(word + rest) == None
  {
    var line := word + rest;
    NotPrefixAt("Renaming ", line, i0);
    NotPrefixAt("Deleting ", line, i1);
    NotPrefixAt("Processing ", line, i2);
  }

  // ---------------------------------------------------------------------
  // Reading a finished line back

  /**
   * A finished editor line that names only a path, split back into command
   * class and path; lines quoting a preview are not read.
   */
  function ParseEditorFinishedLine(line: String): Option<(EditorCommand, String)> {
    if "Viewed " <= line then Some((View, line[|"Viewed "|..]))
    else if "Created " <= line then Some((Create, line[|"Created "|..]))
    else if "Reverted changes to " <= line then Some((UndoEdit, line[|"Reverted changes to "|..]))
    else if "Modified " <= line then Some((OtherEditorCommand, line[|"Modified "|..]))
    else None
  }

  /** A finished file-manager line that names only a path, split back into command class and path. */
  function ParseFileManagerFinishedLine(line: String): Option<(FileManagerCommand, String)> {
    if "Deleted " <= line then Some((Delete, line[|"Deleted "|..]))
    else if "Modified " <= line then Some((OtherFileManagerCommand, line[|"Modified "|..]))
    else None
  }

  /**
   * A finished `view`, `create`, `undo_edit` or unknown-command line names its
   * command (up to the default case) and its path.
   */
  lemma EditorFinishedRoundTrip(args: StrReplaceEditorArgs)
    requires ClassifyEditorCommand(args.command) in {View, Create, UndoEdit, OtherEditorCommand}
    ensures ParseEditorFinishedLine(FormatStrReplaceMessage(args, ResultState))
         == Some((ClassifyEditorCommand(args.command), args.path))
  {
    var line := FormatStrReplaceMessage(args, ResultState);
    var p := args.path;
    match ClassifyEditorCommand(args.command)
    case View => PrefixOfConcat("Viewed ", p);
    case Create =>
      PrefixOfConcat("Created ", p);
      NotPrefixAt("Viewed ", line, 0);
    case UndoEdit =>
      PrefixOfConcat("Reverted changes to ", p);
      NotPrefixAt("Viewed ", line, 0);
      NotPrefixAt("Created ", line, 0);
    case OtherEditorCommand =>
      PrefixOfConcat("Modified ", p);
      NotPrefixAt("Viewed ", line, 0);
      NotPrefixAt("Created ", line, 0);
      NotPrefixAt("Reverted changes to ", line, 0);
  }

  /** A finished `str_replace` or `insert` line is not read as a path-only line. */
  lemma EditorPreviewLineNotPathOnly(args: StrReplaceEditorArgs)
    requires ClassifyEditorCommand(args.command) in {StrReplace, Insert}
    ensures ParseEditorFinishedLine(FormatStrReplaceMessage(args, ResultState)) == None
  {
    var line := FormatStrReplaceMessage(args, ResultState);
    assert line[0] == (if ClassifyEditorCommand(args.command) == StrReplace then 'E' else 'U');
    NotPrefixAt("Viewed ", line, 0);
    NotPrefixAt("Created ", line, 0);
    NotPrefixAt("Reverted changes to ", line, 0);
    NotPrefixAt("Modified ", line, 0);
  }

  /** A finished `delete` or unknown-command line names its command case and its path. */
  lemma FileManagerFinishedRoundTrip(args: FileManagerArgs)
    requires ClassifyFileManagerCommand(args.command) in {Delete, OtherFileManagerCommand}
    ensures ParseFileManagerFinishedLine(FormatFileManagerMessage(args, ResultState))
         == Some((ClassifyFileManagerCommand(args.command), args.path))
  {
    var line := FormatFileManagerMessage(args, ResultState);
    var p := args.path;
    match ClassifyFileManagerCommand(args.command)
    case Delete => PrefixOfConcat("Deleted ", p);
    case OtherFileManagerCommand =>
      PrefixOfConcat("Modified ", p);
      NotPrefixAt("Deleted ", line, 0);
  }

  /** A finished rename, which names two paths, is not read as a path-only line. */
  lemma RenameLineNotPathOnly(args: FileManagerArgs)
    requires ClassifyFileManagerCommand(args.command) == Rename
    ensures ParseFileManagerFinishedLine(FormatFileManagerMessage(args, ResultState)) == None
  {
    var line := FormatFileManagerMessage(args, ResultState);
    assert line[0] == 'R';
    NotPrefixAt("Deleted ", line, 0);
    NotPrefixAt("Modified ", line, 0);
  }

  // ---------------------------------------------------------------------
  // Running lines

  /** A running editor line depends on the command's case and the path, nothing else. */
  lemma EditorPendingDependsOnlyOnCommandAndPath(
    a: StrReplaceEditorArgs, b: StrReplaceEditorArgs, s1: String, s2: String)
    requires s1 != ResultState && s2 != ResultState
    requires ClassifyEditorCommand(a.command) == ClassifyEditorCommand(b.command) && a.path == b.path
    ensures FormatStrReplaceMessage(a, s1) == FormatStrReplaceMessage(b, s2)
  {
  }

  /** Two equal running editor lines come from the same command case on the same path. */
  lemma EditorPendingDeterminesCommandAndPath(
    a: StrReplaceEditorArgs, b: StrReplaceEditorArgs, s1: String, s2: String)
    requires s1 != ResultState && s2 != ResultState
    requires FormatStrReplaceMessage(a, s1) == FormatStrReplaceMessage(b, s2)
    ensures ClassifyEditorCommand(a.command) == ClassifyEditorCommand(b.command)
    ensures a.path == b.path
  {
    EditorPendingRoundTrip(a, s1);
    EditorPendingRoundTrip(b, s2);
  }

  /** No running editor line equals any finished editor line. */
  lemma EditorPendingNeverFinished(a: StrReplaceEditorArgs, b: StrReplaceEditorArgs, state: String)
    requires state != ResultState
    ensures FormatStrReplaceMessage(a, state) != FormatStrReplaceMessage(b, ResultState)
  {
    EditorPendingRoundTrip(a, state);
    EditorFinishedNotPending(b);
  }

  /** A running file-manager line depends on the command's case and the path, nothing else. */
  lemma FileManagerPendingDependsOnlyOnCommandAndPath(
    a: FileManagerArgs, b: FileManagerArgs, s1: String, s2: String)
    requires s1 != ResultState && s2 != ResultState
    requires ClassifyFileManagerCommand(a.command) == ClassifyFileManagerCommand(b.command)
    requires a.path == b.path
    ensures FormatFileManagerMessage(a, s1) == FormatFileManagerMessage(b, s2)
  {
  }

  /** Two equal running file-manager lines come from the same command case on the same path. */
  lemma FileManagerPendingDeterminesCommandAndPath(
    a: FileManagerArgs, b: FileManagerArgs, s1: String, s2: String)
    requires s1 != ResultState && s2 != ResultState
    requires FormatFileManagerMessage(a, s1) == FormatFileManagerMessage(b, s2)
    ensures ClassifyFileManagerCommand(a.command) == ClassifyFileManagerCommand(b.command)
    ensures a.path == b.path
  {
    FileManagerPendingRoundTrip(a, s1);
    FileManagerPendingRoundTrip(b, s2);
  }

  /** No running file-manager line equals any finished file-manager line. */
  lemma FileManagerPendingNeverFinished(a: FileManagerArgs, b: FileManagerArgs, state: String)
    requires state != ResultState
    ensures FormatFileManagerMessage(a, state) != FormatFileManagerMessage(b, ResultState)
  {
    FileManagerPendingRoundTrip(a, state);
    FileManagerFinishedNotPending(b);
  }

  // ---------------------------------------------------------------------
  // Finished lines

  /** Old and new strings that fit in a preview are shown whole. */
  lemma StrReplaceShortStringsShownWhole(args: StrReplaceEditorArgs)
    requires args.command == "str_replace"
    requires |OrEmpty(args.oldStr)| <= PreviewLength && |OrEmpty(args.newStr)| <= PreviewLength
    ensures FormatStrReplaceMessage(args, ResultState)
         == "Edited " + args.path + ": Replacing \"" + OrEmpty(args.oldStr)
            + "\" with \"" + OrEmpty(args.newStr) + "\""
  {
  }

  /** An old string longer than a preview shows its first 37 characters and an ellipsis. */
  lemma StrReplaceLongOldStringCut(args: StrReplaceEditorArgs, oldStr: String)
    requires args.command == "str_replace" && args.oldStr == Some(oldStr) && |oldStr| > PreviewLength
    ensures FormatStrReplaceMessage(args, ResultState)
         == "Edited " + args.path + ": Replacing \"" + oldStr[..PreviewLength - 3] + "..."
            + "\" with \"" + Preview(args.newStr) + "\""
  {
    TruncateCut(oldStr, PreviewLength);
  }

  /** Absent and empty old and new strings both give the empty quotes. */
  lemma StrReplaceEmptyStrings(args: StrReplaceEditorArgs)
    requires args.command == "str_replace"
    requires args.oldStr in {None, Some("")} && args.newStr in {None, Some("")}
    ensures FormatStrReplaceMessage(args, ResultState)
         == "Edited " + args.path + ": Replacing \"\" with \"\""
  {
  }

  /** An inserted string that fits in a preview is shown whole. */
  lemma InsertShortStringShownWhole(args: StrReplaceEditorArgs)
    requires args.command == "insert" && |OrEmpty(args.newStr)| <= PreviewLength
    ensures FormatStrReplaceMessage(args, ResultState)
         == "Updated " + args.path + ": Inserted \"" + OrEmpty(args.newStr) + "\""
  {
  }

  /** A new string longer than a preview shows its first 37 characters and an ellipsis. */
  lemma StrReplaceLongNewStringCut(args: StrReplaceEditorArgs, newStr: String)
    requires args.command == "str_replace" && args.newStr == Some(newStr) && |newStr| > PreviewLength
    ensures FormatStrReplaceMessage(args, ResultState)
         == "Edited " + args.path + ": Replacing \"" + Preview(args.oldStr)
            + "\" with \"" + newStr[..PreviewLength - 3] + "..." + "\""
  {
    TruncateCut(newStr, PreviewLength);
  }

  /** An inserted string longer than a preview shows its first 37 characters and an ellipsis. */
  lemma InsertLongStringCut(args: StrReplaceEditorArgs, newStr: String)
    requires args.command == "insert" && args.newStr == Some(newStr) && |newStr| > PreviewLength
    ensures FormatStrReplaceMessage(args, ResultState)
         == "Updated " + args.path + ": Inserted \"" + newStr[..PreviewLength - 3] + "..." + "\""
  {
    TruncateCut(newStr, PreviewLength);
  }

  /** A finished rename names both paths; a missing new path prints as "undefined". */
  lemma RenameFinishedLine(args: FileManagerArgs)
    requires args.command == "rename"
    ensures args.newPath.Some? ==>
      FormatFileManagerMessage(args, ResultState)
        == "Renamed " + args.path + " to " + args.newPath.value
    ensures args.newPath.None? ==>
      FormatFileManagerMessage(args, ResultState) == "Renamed " + args.path + " to undefined"
  {
  }

  // ---------------------------------------------------------------------
  // Routing and indicator

  /** For a tool without a phrase of its own the arguments play no part. */
  lemma UnknownToolIgnoresArguments(toolName: String, a: ParsedArgs, b: ParsedArgs, state: String)
    requires !IsKnownTool(toolName)
    ensures FormatToolMessage(toolName, a, state) == FormatToolMessage(toolName, b, state)
  {
  }

  /** While the call runs the spinner is shown, whatever the result holds. */
  lemma SpinnerWhileRunning(toolName: String, args: ParsedArgs, state: String, result: JsValue)
    requires state != ResultState
    ensures ToolInvocationMessage(toolName, args, state, result).indicator == Spinner
  {
  }

  /** The green dot next to an editor or file-manager line never goes with a running phrase. */
  lemma GreenDotNeverWithRunningPhrase(
    toolName: String, args: ParsedArgs, state: String, result: JsValue)
    requires IsKnownTool(toolName) && args.Parsed?
    requires ToolInvocationMessage(toolName, args, state, result).indicator == GreenDot
    ensures toolName == EditorTool ==>
      ParseEditorPendingLine(ToolInvocationMessage(toolName, args, state, result).message) == None
    ensures toolName == FileManagerTool ==>
      ParseFileManagerPendingLine(ToolInvocationMessage(toolName, args, state, result).message) == None
  {
    if toolName == EditorTool {
      EditorFinishedNotPending(args.obj.AsEditorArgs());
    } else {
      FileManagerFinishedNotPending(args.obj.AsFileManagerArgs());
    }
  }
}
