# debug-helper, modelled in Dafny

`debug-helper` is a PHP debugging aid. It has two parts. The first is a
process-wide output sink (`Output`). It keeps an indent counter with a cap,
a colour switch and an ANSI switch, and prints through thirteen leveled
calls (`log`, `error`, `warn`, `section`, ...) that put a coloured prefix in
front of their arguments. The second is an error and exception handler
(`Handler`). For a raised error, a fatal error found at shutdown or an
uncaught exception, it writes a coloured summary. It then writes a preview of
the source lines around the failing line and the stack trace. In the trace,
each argument is coloured by its type, and array arguments become numbered
`Array[n]` placeholders whose JSON dumps follow on a separate record.

The model has seven modules:

- `Wrappers` holds `Option`.
- `Strings` holds the PHP string built-ins the code relies on: integer to
  string, `implode`, `explode`, `str_pad`, and `str_replace` of one
  character.
- `Console` models `src/Color/Console.php`: the SGR escape sequences of
  ECMA-48, section 8.3.117, in the 256-colour forms `38;5;n` and `48;5;n`.
- `OutputSink` models `src/Output.php`. The static fields become the class
  `Output`. The stream is the sequence `out` of records written so far, plus
  a flag saying whether a stream is set. `write` is proved against the pure
  function `Record`. Every leveled call is `Emit` with a `Level`.
- `TraceRender` models the frame-rendering loop of `MakePrettyException`.
- `SourcePreview` models the line-scanning loop of `errorHandler` and
  `handler`.
- `ExceptionHandler` models `src/Exception/Handler.php`. The class `Handler`
  keeps its five enable switches. Each entry point is proved to append
  exactly the records of a pure report function (`ErrorReport`,
  `ExceptionReport`, `TraceRecords`, `PreviewRecords`). The properties
  promised about those reports are then proved as lemmas.

The runtime's inputs are parameters:

- the backtrace, as a sequence of `Frame` values;
- the result of `error_get_last()`, as an `Option<LastError>`;
- the readable files, as a map from path to the lines `fgets` returns. A
  path missing from the map is a file that cannot be opened.
- `Ansi::toAnsi`, as an uninterpreted `palette: string -> nat`.

Behaviours of the code that the model reproduces and a reader may not
expect:

- All array dumps of one frame go into ONE follow-up record, not one record
  per array.
- The default branch of `errorHandler`, for unlisted error numbers, writes no
  blank line before its summary.
- A non-`Exception` throwable is summarised as `PHP-Exception"..."`, with no
  `: ` after the kind.
- A disabled category still resets the indent to 0 before returning.
- `errorHandler` and `handler` leave the indent at 1.
- The colour sequences inside trace and preview lines ignore the sink's
  colour switches.
- Whether `, ` follows an argument is decided by comparing the FRAME index
  with the argument count, as written, not the argument index.
  `TraceRender.SeparatorQuirk` shows what this does to a two-argument call.

## Model

| member | source | states |
|---|---|---|
| Console.StyleConstants | src/Color/Console.php:6-9 | RESET, BOLD, ITALIC and UNDERLINE are the SGR sequences 0, 1, 3 and 4 |
| Console.Fg | src/Color/Console.php:19-25 | `fg` is always a well-formed SGR sequence with no line break |
| Console.FgShape | src/Color/Console.php:19-25 | `fg` is SGR `38;5;n`, with the bold parameter `1;` in front exactly when bold is asked for |
| Console.Bg | src/Color/Console.php:27-29 | `bg` is always a well-formed SGR sequence with no line break |
| Console.BgShape | src/Color/Console.php:27-29 | `bg` is SGR `48;5;n` |
| Console.FgInjective | src/Color/Console.php:19-25 | a foreground sequence determines both its colour index and its boldness |
| Console.BgInjective | src/Color/Console.php:19-29 | a background sequence determines its colour index and is never equal to any foreground sequence |
| Console.RGBShape | src/Color/Console.php:11-17 | `fgRGB` and `bgRGB` are the foreground and background sequences of the palette index `toAnsi` gives the colour specification |
| Strings.NatStr | src/Exception/Handler.php:53 | the decimal rendering of a natural number is non-empty and all digits |
| Strings.ParseNatStr | src/Exception/Handler.php:53 | reading the rendered digits back gives the number |
| Strings.NatStrInjective | src/Exception/Handler.php:53 | different numbers render differently, so frame numbers and `Array[n]` numbers are unambiguous |
| Strings.IntStr | src/Exception/Handler.php:60 | an integer renders as digits, with a leading minus exactly when it is negative |
| Strings.Split | src/Output.php:152 | `explode` on a character yields at least one piece, and no piece holds the delimiter |
| Strings.SplitCount | src/Output.php:152 | `explode` yields one piece more than the string holds delimiters |
| Strings.JoinSplit | src/Output.php:151-152 | joining the pieces of `explode` with the delimiter gives the string back |
| Strings.SplitJoin | src/Output.php:155-161 | splitting the join of delimiter-free pieces gives the pieces back |
| Strings.Join | src/Output.php:151 | definition of `implode`, no contract; its properties are stated by `JoinSplit`, `SplitJoin` and `JoinPrefixFirst` |
| Strings.JoinPrefixFirst | src/Output.php:57-62 | prefixing the first argument prefixes the space-joined arguments |
| Strings.PadLeft | src/Output.php:156 | `str_pad('', w, ' ', STR_PAD_LEFT)` is exactly `w` spaces, and empty when `w` is 0 or less |
| Strings.ConcatEmpty | src/Exception/Handler.php:96-98 | a concatenation is empty exactly when every piece is empty |
| Strings.Remove | src/Exception/Handler.php:233 | `str_replace("\n", '', s)` leaves no line break and never lengthens the string |
| Strings.RemoveAbsent | src/Exception/Handler.php:233 | removing a character that is absent changes nothing |
| Strings.RemoveAppend | src/Exception/Handler.php:233 | removal distributes over concatenation |
| OutputSink.Expand | src/Output.php:111-117 | one printed string per argument, each argument's own |
| OutputSink.ParseArgs | src/Output.php:111-117 | the loop yields exactly `Expand(args)`: composites are replaced by their `print_r` dump; scalars are kept; order and count are preserved |
| OutputSink.GetColor | src/Output.php:74-96 | the result is empty exactly when colours or ANSI are off, or nothing is asked for; it never holds a line break |
| OutputSink.ColorOrder | src/Output.php:74-92 | when both switches are on, the background sequence comes first and the foreground sequence last |
| OutputSink.BareBoldLast | src/Output.php:82-92 | the result ends in the bare BOLD sequence exactly when both switches are on, no foreground is given and bold is asked for |
| OutputSink.ResetColor | src/Output.php:98-104 | the reset sequence when colours are on, else nothing |
| OutputSink.LevelPrefix | src/Output.php:165-230 | no level's prefix holds a line break; with colours off each prefix is its plain label |
| OutputSink.Prefixed | src/Output.php:51-63 | `setArgs` puts the prefix in front of the first argument, or alone when there is none; the other arguments are unchanged; the joined text is the prefix followed by the joined arguments |
| OutputSink.Record | src/Output.php:148-161 | definition of the text `write` appends, no contract; `RecordLines` states its shape |
| OutputSink.RecordLines | src/Output.php:139-163 | a record is its body followed by a space, the reset code and a newline; the body has one physical line per line of the space-joined arguments, each behind `4 * min(indent, maxIndent)` spaces |
| OutputSink.PadWidthClamps | src/Output.php:144-156 | the rendered padding is 4 times the floored counter clamped to the cap, between 0 and `4 * maxIndent` |
| OutputSink.LevelRecords | src/Output.php:165-230 | each leveled call appends one record, and `section` appends two (a blank `log` first); the last record is the prefixed arguments |
| OutputSink.Output.constructor | src/Output.php:16-35 | indent 0, cap 6, colours and ANSI on, nothing written |
| OutputSink.Output.Configured | src/Output.php:16-35 | the settings as given, indent 0, nothing written |
| OutputSink.Output.Write | src/Output.php:139-163 | without a stream nothing changes; otherwise a negative indent is floored to 0 and exactly one `Record` of the expanded arguments is appended |
| OutputSink.Output.SetArgs | src/Output.php:51-63 | appends exactly the record of the prefixed, expanded arguments, or nothing without a stream |
| OutputSink.Output.Emit | src/Output.php:165-230 | a leveled call appends exactly its `LevelRecords`, or nothing without a stream |
| OutputSink.Output.IndentUp | src/Output.php:232-234 | returns the old counter and adds 1 |
| OutputSink.Output.IndentDown | src/Output.php:236-238 | returns the old counter and subtracts 1 |
| OutputSink.Output.SetIndent | src/Output.php:240-242 | stores the value (0 by default) and returns it |
| OutputSink.Output.GetIndent | src/Output.php:244-246 | returns the raw counter |
| TraceRender.ArgColor | src/Exception/Handler.php:78-108 | every argument type except NULL gets a colour sequence; NULL gets none |
| TraceRender.ArraysBefore | src/Exception/Handler.php:94-101 | the count of arrays among the first `n` arguments is at most `n` |
| TraceRender.ArgText | src/Exception/Handler.php:78-109 | definition, no contract: the inline text of each argument type (`1`/empty for booleans, the class name for objects, `Array[n]` for arrays, `NULL`) |
| TraceRender.Separator | src/Exception/Handler.php:110-113 | definition, no contract: `, ` when the frame index is below the argument count minus one; `SeparatorByFrameIndex` states it |
| TraceRender.FrameHead | src/Exception/Handler.php:53-73 | definition, no contract: `#k `, then file, `(line) `, class, call type and `function( `, each when not empty; `BuildHead` is proved equal to it |
| TraceRender.FrameLine | src/Exception/Handler.php:53-116 | definition, no contract: the head, the argument pieces and ` )`; `BuildFrame` is proved equal to it and `FrameLineIgnoresDumps` states a property of it |
| TraceRender.Truncated | src/Exception/Handler.php:97-98 | a dump of at most 500 characters is kept whole; a longer one is cut to 500 and marked `[more not shown]` |
| TraceRender.NoArraysNoNotes | src/Exception/Handler.php:94-102 | a frame has follow-up text exactly when one of its arguments is an array |
| TraceRender.RenderArg | src/Exception/Handler.php:78-108 | the switch gives each argument its colour, its inline text and, for an array, its note |
| TraceRender.BuildHead | src/Exception/Handler.php:53-73 | the frame head is `#k `, then the file, `(line) `, class, call type and `function( `, each only when not empty |
| TraceRender.AppendArg | src/Exception/Handler.php:76-114 | one argument appends its piece to the line and its note to the follow-up text, and advances the array counter exactly for an array |
| TraceRender.BuildArgs | src/Exception/Handler.php:74-115 | the argument loop builds the concatenated pieces and the concatenated array notes, in argument order |
| TraceRender.BuildFrame | src/Exception/Handler.php:51-116 | a frame's line is its head, its argument pieces and ` )`; its follow-up text is its array notes |
| TraceRender.CountMonotone | src/Exception/Handler.php:94-101 | the array counter never decreases along the arguments |
| TraceRender.OrdinalsIncrease | src/Exception/Handler.php:94-102 | a later array argument gets a strictly larger number than an earlier one |
| TraceRender.OrdinalWithinCount | src/Exception/Handler.php:94-102 | every array argument's number, the first and only one included, lies between 1 and the frame's array count |
| TraceRender.EveryOrdinalUsed | src/Exception/Handler.php:94-102 | every number from 1 to the array count labels some array argument |
| TraceRender.SamePiece | src/Exception/Handler.php:76-114 | an argument's piece depends only on its type, its inline text and how many arrays precede it |
| TraceRender.FrameLineIgnoresDumps | src/Exception/Handler.php:94-102 | an array's contents never show in the frame line: changing a dump leaves the line unchanged |
| TraceRender.SeparatorByFrameIndex | src/Exception/Handler.php:110-113 | `, ` follows an argument exactly when the frame index is below the argument count minus one |
| TraceRender.SeparatorQuirk | src/Exception/Handler.php:110-113 | as frame #0, a two-argument call gets `, ` after its last argument too; as a later frame, no separator between its two arguments |
| TraceRender.NoteShowsAtMostLimit | src/Exception/Handler.php:96-98 | an array note is the `Array[n]: ` label followed by at most 500 characters of the dump, marked when cut |
| SourcePreview.Window | src/Exception/Handler.php:216-229 | definition, no contract: the numbered lines from `max(1, errline - 4)` to `min(count, errline + 4)`; `WindowExact` states what it holds |
| SourcePreview.WindowExact | src/Exception/Handler.php:216-229 | the preview holds exactly the existing lines strictly between `errline - 5` and `errline + 5`, each with its own text, in ascending order, at most nine |
| SourcePreview.ScanPreview | src/Exception/Handler.php:213-230 | the scanning loop collects exactly the window, and stops after reading the first line past `errline + 5` |
| SourcePreview.PreviewLine | src/Exception/Handler.php:232-238 | a preview line is its number, `: ` and its text without line breaks; it is highlighted exactly when it is the failing line |
| ExceptionHandler.Classify | src/Exception/Handler.php:157-210 | definition, no contract: the case of the switch an error number falls into; `ClassifyListed` states it |
| ExceptionHandler.ClassifyListed | src/Exception/Handler.php:157-210 | exactly the nine listed error numbers have a case of their own; the error case is E_ERROR and E_USER_ERROR; the strict case is E_STRICT |
| ExceptionHandler.Resolved | src/Exception/Handler.php:128-148 | definition, no contract: each default replaced by the last error's entry when that is not PHP-empty; `ResolvedComplete` states it |
| ExceptionHandler.ResolvedComplete | src/Exception/Handler.php:128-148 | the fatal report always has an error number, a file and a message, and keeps every non-empty entry of the last error |
| ExceptionHandler.EmptyLastErrorDefaults | src/Exception/Handler.php:128-152 | an empty last error is reported as E_CORE_ERROR in `unknown file` with message `shutdown`, and that number goes to the default branch, which is never dropped |
| ExceptionHandler.ExceptionMessage | src/Exception/Handler.php:250-259 | the summary starts with the kind and the quoted message followed by ` thrown at `, and ends with `file(line)` |
| ExceptionHandler.ExceptionKindShown | src/Exception/Handler.php:250-259 | the summary tells an `Exception` from any other throwable |
| ExceptionHandler.Headline | src/Exception/Handler.php:157-210 | definition, no contract: a blank `log` and the caption with the message at the category's level, or for unlisted numbers only the error-level number and message |
| ExceptionHandler.ErrorReport | src/Exception/Handler.php:157-245 | definition, no contract: the headline, a blank line, then preview, trace and blank line at indent 1; `ErrorHandler` is proved to write it |
| ExceptionHandler.ExceptionReport | src/Exception/Handler.php:260-297 | definition, no contract: a blank line, the error-level summary, a blank line, then preview, trace and blank line at indent 1; `Handle` is proved to write it |
| ExceptionHandler.PreviewLinesCount | src/Exception/Handler.php:232-239 | one record per preview line |
| ExceptionHandler.PreviewRecordsBound | src/Exception/Handler.php:213-240 | an unreadable file gives no preview at all; a readable one gives the header and at most nine lines |
| ExceptionHandler.FrameRecordsCount | src/Exception/Handler.php:117-124 | a frame writes one record, or three when it has follow-up text |
| ExceptionHandler.FramesRecordsCount | src/Exception/Handler.php:49-125 | a trace writes between one and three records per frame |
| ExceptionHandler.PlainFrameOneRecord | src/Exception/Handler.php:117-124 | a frame without array arguments writes exactly its line |
| ExceptionHandler.Handler.constructor | src/Exception/Handler.php:23-27 | every category is enabled |
| ExceptionHandler.Handler.ShowPreview | src/Exception/Handler.php:213-240 | appends the preview records of the window, or nothing when the file cannot be opened |
| ExceptionHandler.Handler.ShowFrame | src/Exception/Handler.php:117-124 | appends the frame's line, then its notes and a blank line one level deeper when there are notes; the indent ends where it started |
| ExceptionHandler.Handler.MakePrettyException | src/Exception/Handler.php:44-126 | appends a blank line, the `Stack Trace:` header and every frame's records in trace order |
| ExceptionHandler.Handler.Announce | src/Exception/Handler.php:165-205 | appends a blank line and the caption with the message at the category's level, at indent 0 |
| ExceptionHandler.Handler.Summarise | src/Exception/Handler.php:157-210 | returns false and writes nothing for a disabled category; otherwise appends the category's summary |
| ExceptionHandler.Handler.ErrorHandler | src/Exception/Handler.php:154-246 | a disabled category writes nothing and leaves the indent at 0; otherwise it appends the summary, a blank line, the preview, the caller's trace and a blank line, and leaves the indent at 1 |
| ExceptionHandler.Handler.ReportDetails | src/Exception/Handler.php:211-245 | at indent 1, appends the preview, the trace and a blank line |
| ExceptionHandler.Handler.FatalHandler | src/Exception/Handler.php:128-152 | nothing without a last error; otherwise exactly what `errorHandler` writes for that error with its empty entries defaulted |
| ExceptionHandler.Handler.Handle | src/Exception/Handler.php:248-298 | always appends the blank line, the error-level summary, a blank line, the preview and the trace, and leaves the indent at 1 |

## Left out

- `Output::init` and the choice of stream are not modelled. Those are the SAPI check and `fopen` of the error path. A stream is either set or not, fixed at construction.
- `is_resource` and `fwrite` are merged into the "stream is set" flag. A write is appended to `out` in full, with no partial writes.
- The static settings `$maxIndent`, `$colors` and `$ansi` are fixed once the `Output` object exists. PHP lets any caller assign them between calls.
- `getPrepend` is not modelled. `write` never calls it, and it reads a property the class does not declare.
- `print_r`, `json_encode`, `get_class` and `gettype` are inputs to the model. A composite argument carries its dump, an array argument its JSON text, and an object argument its class name. A float, resource or other argument carries the string PHP would print.
- `Ansi::toAnsi` is the uninterpreted `palette` parameter. `src/Color/Ansi.php` is not part of this model, and neither are `bgRGB`'s separate red, green and blue parameters.
- `setArgs` also accepts its prefix as an array, which it `implode`s. No leveled call passes an array, so the model takes a string.
- `fopen`, `fgets` and `fclose` become the `files` map. A read error part-way through a file is not modelled.
- `debug_backtrace` and `error_get_last` become parameters.
- Registering the handlers (`set_exception_handler`, `set_error_handler`, `register_shutdown_function`) is not modelled.
- `__destruct`'s re-throw is not modelled. `$rethrow` is never assigned in the class.
- Strings are sequences of `char`, one per byte. `substr`/`strlen` count bytes, so a multi-byte dump is cut by characters here.
- Integers are unbounded. PHP's integer width plays no part in any of the rendered numbers.
