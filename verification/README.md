# Tool-invocation status lines

A model of the chat component that summarises one tool call of the UI
generator's assistant as a single status line
(`src/components/chat/ToolInvocationMessage.tsx`). A call is given by the
tool's name, its arguments (an object, or JSON text) and its state; once it
has finished it may also carry a result. The component shows:

- for `str_replace_editor` calls, a phrase per command (`view`, `create`,
  `str_replace`, `insert`, `undo_edit`, anything else), in a running form
  ("Viewing p") and a finished form ("Viewed p"); finished `str_replace` and
  `insert` lines quote the old and new strings, cut to a 40-character preview;
- for `file_manager` calls, the same for `rename`, `delete` and anything else;
- for every other tool, and for a file tool whose arguments cannot be read,
  the tool's name, or "Running <name>..." while it runs;
- a green dot once the state is exactly "result" and the result is truthy,
  a spinner otherwise.

Files:

- `wrappers.dfy`: the `Option` type for optional argument fields.
- `chat_types.dfy`: the argument records of the two tools (`types.ts`), the
  argument object shared by both, the outcome of reading the arguments, and
  the JavaScript result value with its truthiness.
- `invocation_message.dfy`: `TruncateText`, the two formatters, the routing
  `FormatToolMessage` and the rendered `ToolInvocationMessage`.
- `invocation_message_properties.dfy`: what the lines promise. Its partner
  for the formatters is a reader of status lines (`ParseEditorPendingLine`,
  `ParseFileManagerPendingLine` for running lines, `ParseEditorFinishedLine`,
  `ParseFileManagerFinishedLine` for finished lines that name only a path):
  a line gives back its command case and its path, and no finished line
  reads as a running one.
- `invocation_message_examples.dfy`: the exact lines the component's test
  suite expects.

Every state other than exactly "result" counts as running, since the source
tests `state !== "result"`, and not only the state "pending".

## Model

| member | source | states |
|---|---|---|
| InvocationMessage.SubstringEnd | src/components/chat/ToolInvocationMessage.tsx:17 | the end index of `substring(0, end)` is kept when it lies in [0, len], becomes 0 below and len above, as JavaScript clamps it |
| InvocationMessage.TruncateText | src/components/chat/ToolInvocationMessage.tsx:15-18 | a text that fits comes back unchanged; a longer one becomes a prefix of itself followed by "...", of length exactly the bound (3 when the bound is below 3) |
| InvocationMessage.Preview | src/components/chat/ToolInvocationMessage.tsx:42-47 | the preview of an old or new string is never longer than 40 characters: an absent string reads as "", one of at most 40 characters is shown whole, a longer one as its first 37 characters and "..." |
| InvocationMessage.FormatToolMessage | src/components/chat/ToolInvocationMessage.tsx:81-104 | an unknown tool and unreadable arguments give the same fallback: the tool's name when finished, "Running name..." otherwise |
| InvocationMessage.ToolInvocationMessage | src/components/chat/ToolInvocationMessage.tsx:122-132 | the green dot is shown exactly when the state is "result" and the result is truthy; the message is the formatted phrase |
| InvocationMessageProperties.TruncateUnchangedIff | src/components/chat/ToolInvocationMessage.tsx:15-18 | for a bound of at least 3, the text is returned unchanged if and only if it fits |
| InvocationMessageProperties.TruncateCut | src/components/chat/ToolInvocationMessage.tsx:17 | a cut text equals its first bound-3 characters plus "..." and has exactly the bound's length |
| InvocationMessageProperties.TruncateBelowThree | src/components/chat/ToolInvocationMessage.tsx:17 | with a bound below 3 a longer text is shown as "..." alone, which exceeds the bound |
| InvocationMessageProperties.TruncateIdempotent | src/components/chat/ToolInvocationMessage.tsx:15-18 | truncating a preview a second time changes nothing, for every bound |
| InvocationMessageProperties.AbsentPreviewsAsEmpty | src/components/chat/ToolInvocationMessage.tsx:42-43 | an absent string previews exactly as the empty string, which is shown as empty |
| InvocationMessageProperties.EditorCommandLabels | src/components/chat/ToolInvocationMessage.tsx:24-29 | each of "view", "create", "str_replace", "insert" and "undo_edit" selects its own case of the editor's switch |
| InvocationMessageProperties.FileManagerCommandLabels | src/components/chat/ToolInvocationMessage.tsx:62-64 | "rename" and "delete" select their own cases of the file manager's switch |
| InvocationMessageProperties.EditorPendingRoundTrip | src/components/chat/ToolInvocationMessage.tsx:23-31 | reading back a running editor line gives the command's case and the path exactly |
| InvocationMessageProperties.EditorFinishedNotPending | src/components/chat/ToolInvocationMessage.tsx:34-55 | no finished editor line, whatever its arguments, reads as a running line |
| InvocationMessageProperties.EditedLineNotPending | src/components/chat/ToolInvocationMessage.tsx:41-44 | a finished `str_replace` line never reads as a running line |
| InvocationMessageProperties.UpdatedLineNotPending | src/components/chat/ToolInvocationMessage.tsx:46-48 | a finished `insert` line never reads as a running line |
| InvocationMessageProperties.PlainEditorLineNotPending | src/components/chat/ToolInvocationMessage.tsx:35-54 | finished `view`, `create`, `undo_edit` and unknown-command lines never read as running lines |
| InvocationMessageProperties.FileManagerPendingRoundTrip | src/components/chat/ToolInvocationMessage.tsx:61-67 | reading back a running file-manager line gives the command's case and the path exactly |
| InvocationMessageProperties.FileManagerFinishedNotPending | src/components/chat/ToolInvocationMessage.tsx:69-78 | no finished file-manager line, whatever its arguments, reads as a running line |
| InvocationMessageProperties.EditorPendingDependsOnlyOnCommandAndPath | src/components/chat/ToolInvocationMessage.tsx:23-31 | any two non-result states with the same command case and path give the same running editor line |
| InvocationMessageProperties.EditorPendingDeterminesCommandAndPath | src/components/chat/ToolInvocationMessage.tsx:23-31 | two equal running editor lines come from the same command case on the same path |
| InvocationMessageProperties.EditorPendingNeverFinished | src/components/chat/ToolInvocationMessage.tsx:20-56 | a running editor line never equals a finished editor line, for any two argument records |
| InvocationMessageProperties.FileManagerPendingDependsOnlyOnCommandAndPath | src/components/chat/ToolInvocationMessage.tsx:61-67 | any two non-result states with the same command case and path give the same running file-manager line |
| InvocationMessageProperties.FileManagerPendingDeterminesCommandAndPath | src/components/chat/ToolInvocationMessage.tsx:61-67 | two equal running file-manager lines come from the same command case on the same path |
| InvocationMessageProperties.FileManagerPendingNeverFinished | src/components/chat/ToolInvocationMessage.tsx:58-79 | a running file-manager line never equals a finished one |
| InvocationMessageProperties.StrReplaceShortStringsShownWhole | src/components/chat/ToolInvocationMessage.tsx:41-44 | old and new strings of at most 40 characters appear whole in `Edited p: Replacing "old" with "new"` |
| InvocationMessageProperties.StrReplaceLongOldStringCut | src/components/chat/ToolInvocationMessage.tsx:41-44 | an old string over 40 characters appears as its first 37 characters and "..." |
| InvocationMessageProperties.StrReplaceEmptyStrings | src/components/chat/ToolInvocationMessage.tsx:41-44 | absent or empty old and new strings give `Edited p: Replacing "" with ""` |
| InvocationMessageProperties.InsertShortStringShownWhole | src/components/chat/ToolInvocationMessage.tsx:46-48 | an inserted string of at most 40 characters appears whole in `Updated p: Inserted "s"` |
| InvocationMessageProperties.StrReplaceLongNewStringCut | src/components/chat/ToolInvocationMessage.tsx:41-44 | a new string over 40 characters appears as its first 37 characters and "..." in the `Edited` line |
| InvocationMessageProperties.InsertLongStringCut | src/components/chat/ToolInvocationMessage.tsx:46-48 | an inserted string over 40 characters appears as its first 37 characters and "..." in `Updated p: Inserted "…"` |
| InvocationMessageProperties.EditorFinishedRoundTrip | src/components/chat/ToolInvocationMessage.tsx:35-54 | reading back a finished `view`, `create`, `undo_edit` or unknown-command line ("Viewed p", "Created p", "Reverted changes to p", "Modified p") gives the command case and the path exactly |
| InvocationMessageProperties.EditorPreviewLineNotPathOnly | src/components/chat/ToolInvocationMessage.tsx:41-48 | finished `str_replace` and `insert` lines are never read as path-only finished lines |
| InvocationMessageProperties.FileManagerFinishedRoundTrip | src/components/chat/ToolInvocationMessage.tsx:73-77 | reading back a finished `delete` or unknown-command line ("Deleted p", "Modified p") gives the command case and the path exactly |
| InvocationMessageProperties.RenameLineNotPathOnly | src/components/chat/ToolInvocationMessage.tsx:70-71 | a finished rename, which names two paths, is never read as a path-only finished line |
| InvocationMessageProperties.RenameFinishedLine | src/components/chat/ToolInvocationMessage.tsx:70-71 | a finished rename reads `Renamed p to q`, and `Renamed p to undefined` when the new path is missing |
| InvocationMessageProperties.UnknownToolIgnoresArguments | src/components/chat/ToolInvocationMessage.tsx:84-86 | for a tool other than the two file tools the arguments do not affect the line |
| InvocationMessageProperties.SpinnerWhileRunning | src/components/chat/ToolInvocationMessage.tsx:122-132 | in every non-result state the spinner is shown, whatever the result |
| InvocationMessageProperties.GreenDotNeverWithRunningPhrase | src/components/chat/ToolInvocationMessage.tsx:122-132 | when the green dot shows next to a file tool's line, that line is never a running phrase |
| InvocationMessageExamples.CreateExamples | src/components/chat/__tests__/ToolInvocationMessage.test.tsx:7-42 | `create` gives "Creating /components/Button.jsx" while running and "Created /components/Button.jsx" when finished |
| InvocationMessageExamples.ViewExamples | src/components/chat/__tests__/ToolInvocationMessage.test.tsx:44-77 | `view` gives "Viewing /App.jsx" and "Viewed /App.jsx" |
| InvocationMessageExamples.LongOldStringExample | src/components/chat/__tests__/ToolInvocationMessage.test.tsx:79-100 | a 50-character old string is shown as 37 characters and "...", next to the whole new string |
| InvocationMessageExamples.ShortStringsExample | src/components/chat/__tests__/ToolInvocationMessage.test.tsx:102-120 | short strings give `Edited /App.jsx: Replacing "old code" with "new code"` |
| InvocationMessageExamples.StrReplacePendingExample | src/components/chat/__tests__/ToolInvocationMessage.test.tsx:122-139 | a running `str_replace` gives "Editing /App.jsx" |
| InvocationMessageExamples.InsertExamples | src/components/chat/__tests__/ToolInvocationMessage.test.tsx:141-178 | `insert` gives `Updated /App.jsx: Inserted "console.log('test')"` and "Updating /App.jsx" |
| InvocationMessageExamples.UndoEditExamples | src/components/chat/__tests__/ToolInvocationMessage.test.tsx:180-213 | `undo_edit` gives "Reverted changes to /App.jsx" and "Undoing changes to /App.jsx" |
| InvocationMessageExamples.RenameExamples | src/components/chat/__tests__/ToolInvocationMessage.test.tsx:217-252 | `rename` gives "Renamed /old.jsx to /new.jsx" when finished and "Renaming /old.jsx" while running |
| InvocationMessageExamples.DeleteExamples | src/components/chat/__tests__/ToolInvocationMessage.test.tsx:254-287 | `delete` gives "Deleted /test.jsx" when finished and "Deleting /test.jsx" while running |
| InvocationMessageExamples.TruncationBoundaryExamples | src/components/chat/__tests__/ToolInvocationMessage.test.tsx:291-335 | 45 characters preview as 40 ending in "..."; exactly 40 are kept whole |
| InvocationMessageExamples.FallbackExamples | src/components/chat/__tests__/ToolInvocationMessage.test.tsx:362-402 | malformed arguments and an unknown tool show the tool's name, or "Running unknown_tool..." while running |
| InvocationMessageExamples.EmptyStringsExample | src/components/chat/__tests__/ToolInvocationMessage.test.tsx:404-422 | empty strings give `Edited /test.jsx: Replacing "" with ""` |
| InvocationMessageExamples.IndicatorExamples | src/components/chat/__tests__/ToolInvocationMessage.test.tsx:426-455 | a running call shows the spinner; a finished call with result "Success" shows the green dot |

## Left out

- Rendering: the JSX markup, the `cn` class merging, the `Loader2` icon, the CSS classes and the `className` override. Only the choice between green dot and spinner is modelled.
- Logging through `console.log` and `console.error`: it has no effect on the line.
- JSON parsing: `JSON.parse` is foreign code. Its outcome is an input (`Parsed` or `ParseFailed`). `ParseFailed` also stands for JSON that parses to a value that cannot be destructured, such as `null`, because that error is caught by the same `catch`.
- Argument values of the wrong JavaScript type (a number where a string is declared, say) are not modelled. `command` and `path` are strings, as the argument types declare. A missing `command` takes the `default:` branch, exactly like an unknown command string, which the model covers.
- The final `return toolName` after the `try` block cannot be reached, because every known tool name is handled inside the block.
- Numbers in a result are integers. `NaN` has its own case; `-0` folds into `0`. Both are falsy, as in JavaScript.
- String lengths count characters. JavaScript counts UTF-16 code units, so surrogate pairs are not modelled.
- The `str_replace_editor` tool wrapper and the file-editing engine it delegates to: viewing, creating, replacing, inserting and undo are carried out by a virtual file system that is not part of this model. The wrapper itself only defaults missing arguments and returns a constant message for `undo_edit`.
