/**
 * The status line shown in the chat for one tool call: a phrase built from
 * the tool's name, its arguments and its state, and an indicator that is a
 * green dot once the call has finished with a result and a spinner before.
 */
module InvocationMessage {
  import opened Wrappers
  import opened ChatTypes

  const ResultState: String := "result"
  const EditorTool: String := "str_replace_editor"
  const FileManagerTool: String := "file_manager"
  const Ellipsis: String := "..."
  /** The longest preview of an old or new string that a status line shows. */
  const PreviewLength: int := 40

  /** End index of `s.substring(0, end)`: JavaScript clamps it into [0, len]. */
  function SubstringEnd(end: int, len: nat): (k: nat)
    ensures k <= len
    ensures 0 <= end <= len ==> k == end
    ensures end < 0 ==> k == 0
    ensures end > len ==> k == len
  {
    if end < 0 then 0 else if end > len then len else end
  }

  /**
   * A preview of `text` at most `maxLength` long: the text itself when it
   * fits, otherwise its beginning followed by an ellipsis. When `maxLength`
   * is below 3 the ellipsis alone is longer than `maxLength`.
   */
  function TruncateText(text: String, maxLength: int): (r: String)
    ensures |text| <= maxLength ==> r == text
    ensures |text| > maxLength ==>
      && |r| == (if maxLength < 3 then 3 else maxLength)
      && r[|r| - 3..] == Ellipsis
      && r[..|r| - 3] == text[..|r| - 3]
  {
    if |text| <= maxLength then text
    else text[..SubstringEnd(maxLength - 3, |text|)] + Ellipsis
  }

  /** `s || ""`: an absent string reads as the empty string. */
  function OrEmpty(s: Option<String>): String {
    match s
    case Some(v) => v
    case None => ""
  }

  /**
   * The preview of an optional old or new string in a finished line: an
   * absent string reads as "", a string that fits is shown whole, a longer
   * one as its first 37 characters and an ellipsis.
   */
  function Preview(s: Option<String>): (r: String)
    ensures |r| <= PreviewLength
    ensures s.None? ==> r == ""
    ensures |OrEmpty(s)| <= PreviewLength ==> r == OrEmpty(s)
    ensures |OrEmpty(s)| > PreviewLength ==> r == OrEmpty(s)[..PreviewLength - 3] + Ellipsis
  {
    TruncateText(OrEmpty(s), PreviewLength)
  }

  /** `${v}` for an optional value: an absent one prints as "undefined". */
  function Interpolate(s: Option<String>): String {
    match s
    case Some(v) => v
    case None => "undefined"
  }

  /** The `case` labels of the editor's switch; anything else is `Other`. */
  datatype EditorCommand = View | Create | StrReplace | Insert | UndoEdit | OtherEditorCommand

  function ClassifyEditorCommand(command: String): EditorCommand {
    if command == "view" then View
    else if command == "create" then Create
    else if command == "str_replace" then StrReplace
    else if command == "insert" then Insert
    else if command == "undo_edit" then UndoEdit
    else OtherEditorCommand
  }

  /** The `case` labels of the file manager's switch; anything else is `Other`. */
  datatype FileManagerCommand = Rename | Delete | OtherFileManagerCommand

  function ClassifyFileManagerCommand(command: String): FileManagerCommand {
    if command == "rename" then Rename
    else if command == "delete" then Delete
    else OtherFileManagerCommand
  }

  /**
   * The phrase for a `str_replace_editor` call. Every state other than
   * exactly "result" counts as still running.
   */
  function FormatStrReplaceMessage(args: StrReplaceEditorArgs, state: String): String {
    var path := args.path;
    if state != ResultState then
      match ClassifyEditorCommand(args.command)
      case View => "Viewing " + path
      case Create => "Creating " + path
      case StrReplace => "Editing " + path
      case Insert => "Updating " + path
      case UndoEdit => "Undoing changes to " + path
      case OtherEditorCommand => "Processing " + path
    else
      match ClassifyEditorCommand(args.command)
      case View => "Viewed " + path
      case Create => "Created " + path
      case StrReplace =>
        "Edited " + path + ": Replacing \"" + Preview(args.oldStr)
          + "\" with \"" + Preview(args.newStr) + "\""
      case Insert => "Updated " + path + ": Inserted \"" + Preview(args.newStr) + "\""
      case UndoEdit => "Reverted changes to " + path
      case OtherEditorCommand => "Modified " + path
  }

  /** The phrase for a `file_manager` call. */
  function FormatFileManagerMessage(args: FileManagerArgs, state: String): String {
    var path := args.path;
    if state != ResultState then
      match ClassifyFileManagerCommand(args.command)
      case Rename => "Renaming " + path
      case Delete => "Deleting " + path
      case OtherFileManagerCommand => "Processing " + path
    else
      match ClassifyFileManagerCommand(args.command)
      case Rename => "Renamed " + path + " to " + Interpolate(args.newPath)
      case Delete => "Deleted " + path
      case OtherFileManagerCommand => "Modified " + path
  }

  /** The two tools whose calls get a phrase of their own. */
  predicate IsKnownTool(toolName: String) {
    toolName == EditorTool || toolName == FileManagerTool
  }

  /** The line shown for a tool without a phrase of its own. */
  function FallbackMessage(toolName: String, state: String): String {
    if state == ResultState then toolName else "Running " + toolName + Ellipsis
  }

  /**
   * The phrase for any tool call: the two file tools are formatted from
   * their arguments, every other tool, and a file tool whose arguments
   * cannot be read, by name alone.
   */
  function FormatToolMessage(toolName: String, args: ParsedArgs, state: String): (r: String)
    ensures !IsKnownTool(toolName) || args.ParseFailed? ==>
      r == (if state == ResultState then toolName else "Running " + toolName + "...")
  {
    if !IsKnownTool(toolName) then FallbackMessage(toolName, state)
    else
      match args
      case ParseFailed => FallbackMessage(toolName, state)
      case Parsed(obj) =>
        if toolName == EditorTool then FormatStrReplaceMessage(obj.AsEditorArgs(), state)
        else FormatFileManagerMessage(obj.AsFileManagerArgs(), state)
  }

  datatype Indicator = GreenDot | Spinner

  /** What the chat shows for one tool call. */
  datatype StatusLine = StatusLine(indicator: Indicator, message: String)

  /**
   * The rendered status line: the green dot only once the state is exactly
   * "result" and the result is truthy, the spinner in every other case.
   */
  function ToolInvocationMessage(toolName: String, args: ParsedArgs, state: String, result: JsValue)
    : (line: StatusLine)
    ensures line.indicator == GreenDot <==> state == ResultState && Truthy(result)
    ensures line.message == FormatToolMessage(toolName, args, state)
  {
    var message := FormatToolMessage(toolName, args, state);
    if state == ResultState && Truthy(result) then StatusLine(GreenDot, message)
    else StatusLine(Spinner, message)
  }
}
