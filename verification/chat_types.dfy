/**
 * The shapes of the data a tool-invocation status line is built from:
 * the argument records of the two file tools, the outcome of reading the
 * arguments, and the JavaScript value a finished tool call returned.
 */
module ChatTypes {
  import opened Wrappers

  /** JavaScript strings, without surrogate pairs. */
  type String = seq<char>

  /** Arguments of the `str_replace_editor` tool. */
  datatype StrReplaceEditorArgs = StrReplaceEditorArgs(
    command: String,
    path: String,
    fileText: Option<String>,
    oldStr: Option<String>,
    newStr: Option<String>,
    insertLine: Option<int>,
    viewRange: Option<(int, int)>)

  /** Arguments of the `file_manager` tool. */
  datatype FileManagerArgs = FileManagerArgs(
    command: String,
    path: String,
    newPath: Option<String>)

  /**
   * The argument object of a tool call once it is read. The same object is
   * handed to whichever formatter the tool name selects, and each formatter
   * reads the fields it knows about.
   */
  datatype ArgsObject = ArgsObject(
    command: String,
    path: String,
    fileText: Option<String>,
    oldStr: Option<String>,
    newStr: Option<String>,
    insertLine: Option<int>,
    viewRange: Option<(int, int)>,
    newPath: Option<String>)
  {
    function AsEditorArgs(): StrReplaceEditorArgs {
      StrReplaceEditorArgs(command, path, fileText, oldStr, newStr, insertLine, viewRange)
    }

    function AsFileManagerArgs(): FileManagerArgs {
      FileManagerArgs(command, path, newPath)
    }
  }

  /**
   * What reading the arguments gives: the object itself (passed in as an
   * object, or JSON text that parsed to one), or a failure (JSON text that
   * does not parse, or that parses to something that cannot be destructured).
   */
  datatype ParsedArgs = Parsed(obj: ArgsObject) | ParseFailed

  /** The JavaScript values a finished tool call can hand back as its result. */
  datatype JsValue =
    | Undefined
    | Null
    | Boolean(b: bool)
    | Number(n: int)
    | NotANumber
    | Text(s: String)
    | Object

  /** JavaScript truthiness: false, 0, NaN, "", null and undefined are falsy. */
  predicate Truthy(v: JsValue) {
    match v
    case Undefined => false
    case Null => false
    case Boolean(b) => b
    case Number(n) => n != 0
    case NotANumber => false
    case Text(s) => s != []
    case Object => true
  }
}
