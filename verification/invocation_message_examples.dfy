/**
 * The status lines the component's test suite expects, stated for the model.
 */
module InvocationMessageExamples {
  import opened Wrappers
  import opened ChatTypes
  import opened InvocationMessage
  import opened InvocationMessageProperties

  /** An argument object holding only a command and a path. */
  function Call(command: String, path: String): ArgsObject {
    ArgsObject(command, path, None, None, None, None, None, None)
  }

  function RepeatA(n: nat): (s: String)
    ensures |s| == n
  {
    seq(n, _ => 'a')
  }

  function ButtonCreate(): ArgsObject {
    Call("create", "/components/Button.jsx").(fileText := Some("export default function Button() {}"))
  }

  lemma CreateExamples()
    ensures FormatToolMessage(EditorTool, Parsed(ButtonCreate()), "pending")
         == "Creating " + "/components/Button.jsx"
    ensures FormatToolMessage(EditorTool, Parsed(ButtonCreate()), "result")
         == "Created " + "/components/Button.jsx"
  {
    EditorCommandLabels();
  }

  lemma ViewExamples()
    ensures FormatToolMessage(EditorTool, Parsed(Call("view", "/App.jsx")), "pending") == "Viewing /App.jsx"
    ensures FormatToolMessage(EditorTool, Parsed(Call("view", "/App.jsx")), "result") == "Viewed /App.jsx"
  {
    EditorCommandLabels();
  }

  lemma StrReplacePendingExample()
    ensures FormatToolMessage(EditorTool,
      Parsed(Call("str_replace", "/App.jsx").(oldStr := Some("old"), newStr := Some("new"))),
      "pending") == "Editing /App.jsx"
  {
    EditorCommandLabels();
  }

  lemma UndoEditExamples()
    ensures FormatToolMessage(EditorTool, Parsed(Call("undo_edit", "/App.jsx")), "result")
         == "Reverted changes to /App.jsx"
    ensures FormatToolMessage(EditorTool, Parsed(Call("undo_edit", "/App.jsx")), "pending")
         == "Undoing changes to /App.jsx"
  {
    EditorCommandLabels();
  }

  function LogInsert(): ArgsObject {
    Call("insert", "/App.jsx").(newStr := Some("console.log('test')"), insertLine := Some(5))
  }

  lemma InsertExamples()
    ensures FormatToolMessage(EditorTool, Parsed(LogInsert()), "result")
         == "Updated " + "/App.jsx" + ": Inserted \"" + "console.log('test')" + "\""
    ensures FormatToolMessage(EditorTool, Parsed(LogInsert()), "pending") == "Updating /App.jsx"
  {
    EditorCommandLabels();
    InsertShortStringShownWhole(LogInsert().AsEditorArgs());
  }

  /** A 50-character old string is cut to 37 characters and an ellipsis. */
  lemma LongOldStringExample()
    ensures FormatToolMessage(EditorTool,
      Parsed(Call("str_replace", "/App.jsx").(oldStr := Some(RepeatA(50)), newStr := Some("new code"))),
      "result")
      == "Edited " + "/App.jsx" + ": Replacing \"" + RepeatA(37) + "..." + "\" with \"" + "new code" + "\""
  {
    var obj := Call("str_replace", "/App.jsx").(oldStr := Some(RepeatA(50)), newStr := Some("new code"));
    EditorCommandLabels();
    assert RepeatA(50)[..37] == RepeatA(37);
    StrReplaceLongOldStringCut(obj.AsEditorArgs(), RepeatA(50));
    assert Preview(Some("new code")) == "new code";
  }

  lemma ShortStringsExample()
    ensures FormatToolMessage(EditorTool,
      Parsed(Call("str_replace", "/App.jsx").(oldStr := Some("old code"), newStr := Some("new code"))),
      "result")
      == "Edited " + "/App.jsx" + ": Replacing \"" + "old code" + "\" with \"" + "new code" + "\""
  {
    EditorCommandLabels();
    StrReplaceShortStringsShownWhole(
      Call("str_replace", "/App.jsx").(oldStr := Some("old code"), newStr := Some("new code")).AsEditorArgs());
  }

  /** 45 characters are cut to a 40-character preview; exactly 40 are kept. */
  lemma TruncationBoundaryExamples()
    ensures |Preview(Some(RepeatA(45)))| == 40 && Preview(Some(RepeatA(45)))[37..] == "..."
    ensures Preview(Some(RepeatA(40))) == RepeatA(40)
  {
  }

  lemma EmptyStringsExample()
    ensures FormatToolMessage(EditorTool,
      Parsed(Call("str_replace", "/test.jsx").(oldStr := Some(""), newStr := Some(""))),
      "result") == "Edited " + "/test.jsx" + ": Replacing \"\" with \"\""
  {
    EditorCommandLabels();
    StrReplaceEmptyStrings(
      Call("str_replace", "/test.jsx").(oldStr := Some(""), newStr := Some("")).AsEditorArgs());
  }

  lemma RenameExamples()
    ensures FormatToolMessage(FileManagerTool,
      Parsed(Call("rename", "/old.jsx").(newPath := Some("/new.jsx"))), "result")
         == "Renamed " + "/old.jsx" + " to " + "/new.jsx"
    ensures FormatToolMessage(FileManagerTool,
      Parsed(Call("rename", "/old.jsx").(newPath := Some("/new.jsx"))), "pending")
         == "Renaming /old.jsx"
  {
    FileManagerCommandLabels();
  }

  lemma DeleteExamples()
    ensures FormatToolMessage(FileManagerTool, Parsed(Call("delete", "/test.jsx")), "result")
         == "Deleted /test.jsx"
    ensures FormatToolMessage(FileManagerTool, Parsed(Call("delete", "/test.jsx")), "pending")
         == "Deleting /test.jsx"
  {
    FileManagerCommandLabels();
  }

  /** Unreadable arguments and unknown tools fall back on the tool's name. */
  lemma FallbackExamples()
    ensures FormatToolMessage(EditorTool, ParseFailed, "result") == "str_replace_editor"
    ensures FormatToolMessage("unknown_tool", Parsed(Call("create", "/test.jsx")), "result")
         == "unknown_tool"
    ensures FormatToolMessage("unknown_tool", Parsed(Call("create", "/test.jsx")), "pending")
         == "Running unknown_tool..."
  {
    assert !IsKnownTool("unknown_tool");
    assert "Running " + "unknown_tool" + "..." == "Running unknown_tool...";
  }

  /** The spinner while running, the green dot once a result has arrived. */
  lemma IndicatorExamples()
    ensures ToolInvocationMessage(EditorTool, Parsed(Call("create", "/test.jsx")), "pending", Undefined)
      .indicator == Spinner
    ensures ToolInvocationMessage(EditorTool, Parsed(Call("create", "/test.jsx")), "result", Text("Success"))
      .indicator == GreenDot
  {
  }
}
