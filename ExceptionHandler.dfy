/**
 * The error and exception handler: for a raised error, a shutdown-time fatal
 * error or an uncaught exception it resets the indent, writes a coloured
 * summary, a preview of the failing source lines and the stack trace.
 *
 * Registering the handlers with the runtime and re-throwing on destruction
 * are not part of this model. The runtime's inputs are parameters: the
 * backtrace, the last recorded error, and the readable files as a map from
 * path to lines (a path that is missing stands for a file that cannot be
 * opened).
 */
module ExceptionHandler {
  import opened Wrappers
  import opened Strings
  import opened Console
  import opened OutputSink
  import opened TraceRender
  import opened SourcePreview

  const E_ERROR: int := 1
  const E_WARNING: int := 2
  const E_NOTICE: int := 8
  const E_CORE_ERROR: int := 16
  const E_USER_ERROR: int := 256
  const E_USER_WARNING: int := 512
  const E_USER_NOTICE: int := 1024
  const E_STRICT: int := 2048
  const E_DEPRECATED: int := 8192
  const E_USER_DEPRECATED: int := 16384

  /** The cases of `errorHandler`'s switch. */
  datatype Category = ErrorClass | WarningClass | NoticeClass | DeprecatedClass | StrictClass | OtherClass

  /** Which case of the switch an error number falls into. */
  function Classify(errno: int): Category {
    if errno == E_USER_ERROR || errno == E_ERROR then ErrorClass
    else if errno == E_USER_WARNING || errno == E_WARNING then WarningClass
    else if errno == E_USER_NOTICE || errno == E_NOTICE then NoticeClass
    else if errno == E_USER_DEPRECATED || errno == E_DEPRECATED then DeprecatedClass
    else if errno == E_STRICT then StrictClass
    else OtherClass
  }

  /** Exactly the listed error numbers have a case of their own; every other number takes the default branch. */
  lemma ClassifyListed(errno: int)
    ensures Classify(errno) != OtherClass <==>
            errno in {E_ERROR, E_WARNING, E_NOTICE, E_USER_ERROR, E_USER_WARNING, E_USER_NOTICE,
                      E_STRICT, E_DEPRECATED, E_USER_DEPRECATED}
    ensures Classify(errno) == ErrorClass <==> errno == E_ERROR || errno == E_USER_ERROR
    ensures Classify(errno) == StrictClass <==> errno == E_STRICT
  {
  }

  /** An uncaught throwable: whether it is an `\Exception`, its message, origin and trace. */
  datatype Thrown = Thrown(isException: bool, message: string, file: string, line: int, trace: seq<Frame>)

  /** The entries of `error_get_last()`; an entry that is missing is the empty value of its type. */
  datatype LastError = LastError(errType: int, file: string, line: int, message: string)

  /** What `fatalHandler` passes on to `errorHandler`. */
  datatype Reported = Reported(errno: int, file: string, message: string, line: int)

  /** `fatalHandler`'s defaults, each replaced by the last error's entry when that is not empty. */
  function Resolved(e: LastError): Reported {
    Reported(
      if e.errType != 0 then e.errType else E_CORE_ERROR,
      if !Blank(e.file) then e.file else "unknown file",
      if !Blank(e.message) then e.message else "shutdown",
      if e.line != 0 then e.line else 0)
  }

  /**
   * What `fatalHandler` reports always names an error number, a file and a
   * message, and keeps every entry of the last error that is not empty.
   */
  lemma ResolvedComplete(e: LastError)
    ensures var r := Resolved(e);
            r.errno != 0 && !Blank(r.file) && !Blank(r.message)
    ensures var r := Resolved(e);
            (e.errType != 0 ==> r.errno == e.errType) && (!Blank(e.file) ==> r.file == e.file)
            && (!Blank(e.message) ==> r.message == e.message) && r.line == e.line
  {
  }

  /** With nothing recorded the report is the default branch's, which no switch can drop. */
  lemma EmptyLastErrorDefaults()
    ensures Resolved(LastError(0, "", 0, "")) == Reported(E_CORE_ERROR, "unknown file", "shutdown", 0)
    ensures Classify(E_CORE_ERROR) == OtherClass
  {
  }

  /** The backtrace without its first entry (the handler's own frame), as `array_shift` leaves it. */
  function Caller(backtrace: seq<Frame>): seq<Frame> {
    if |backtrace| > 0 then backtrace[1..] else []
  }

  /** The lines of a file, or nothing when it cannot be opened. */
  function Lookup(files: map<string, seq<string>>, path: string): Option<seq<string>> {
    if path in files then Some(files[path]) else None
  }

  function KindLabel(isException: bool): string {
    if isException then "Internal-Exception: " else "PHP-Exception"
  }

  /** The summary `handler` writes: the kind, the quoted message, the file and `(line)`. */
  function ExceptionMessage(e: Thrown): (r: string)
    ensures var head := KindLabel(e.isException) + "\"" + e.message + "\" thrown at ";
            |head| <= |r| && r[..|head|] == head
    ensures var tail := e.file + "(" + IntStr(e.line) + ")";
            |tail| <= |r| && r[|r| - |tail|..] == tail
  {
    KindLabel(e.isException) + "\"" + e.message + "\" thrown at " + e.file + "(" + IntStr(e.line) + ")"
  }

  /** The summary tells an `\Exception` from any other throwable. */
  lemma ExceptionKindShown(e1: Thrown, e2: Thrown)
    requires ExceptionMessage(e1) == ExceptionMessage(e2)
    ensures e1.isException == e2.isException
  {
    assert ExceptionMessage(e1)[0] == if e1.isException then 'I' else 'P';
    assert ExceptionMessage(e2)[0] == if e2.isException then 'I' else 'P';
  }

  /** One `Output::log(...)` call's records. */
  function LogCall(st: Style, parts: seq<string>, indent: int): seq<string> {
    LevelRecords(st, Log, parts, indent)
  }

  /** The records of the category's summary, written at indent 0. */
  function Headline(st: Style, c: Category, errno: int, message: string): seq<string> {
    match c
    case ErrorClass => LogCall(st, [""], 0) + LevelRecords(st, Error, ["Error:", message], 0)
    case WarningClass => LogCall(st, [""], 0) + LevelRecords(st, WarnColor, ["Warning:", message], 0)
    case NoticeClass => LogCall(st, [""], 0) + LevelRecords(st, LogBold, ["Notice:", message], 0)
    case DeprecatedClass => LogCall(st, [""], 0) + LevelRecords(st, WarnColor, ["Deprecated:", message], 0)
    case StrictClass => LogCall(st, [""], 0) + LevelRecords(st, WarnColor, ["Strict:", message], 0)
    case OtherClass => LevelRecords(st, Error, [IntStr(errno), message], 0)
  }

  /** The records of the preview lines in `code`. */
  function PreviewLines(st: Style, errline: int, code: seq<(int, string)>, indent: int): seq<string>
    decreases |code|
  {
    if code == [] then []
    else
      var last := code[|code| - 1];
      PreviewLines(st, errline, code[..|code| - 1], indent)
      + LogCall(st, [PreviewLine(st.palette, last.0, last.1, errline)], indent)
  }

  /** The `File Preview:` header and the window's lines, or nothing when the file cannot be opened. */
  function PreviewRecords(st: Style, file: string, errline: int, source: Option<seq<string>>, indent: int): seq<string> {
    if source.None? then []
    else
      LogCall(st, [BOLD + "File Preview:", file + "(" + IntStr(errline) + ")"], indent)
      + PreviewLines(st, errline, Window(source.value, errline), indent)
  }

  /** A frame's line, then, when it has array arguments, their notes and a blank line one level deeper. */
  function FrameRecords(st: Style, line: string, after: string, indent: int): seq<string> {
    var head := LogCall(st, [line], indent);
    if !Blank(after) then head + (LogCall(st, [after], indent + 1) + LogCall(st, [], indent + 1))
    else head
  }

  function FramesRecords(st: Style, trace: seq<Frame>, indent: int): seq<string>
    decreases |trace|
  {
    if trace == [] then []
    else
      var k := |trace| - 1;
      FramesRecords(st, trace[..k], indent)
      + FrameRecords(st, FrameLine(st.palette, k, trace[k]), After(st.palette, trace[k].args), indent)
  }

  /** A blank line, the `Stack Trace:` header, then every frame in order. */
  function TraceRecords(st: Style, trace: seq<Frame>, indent: int): seq<string> {
    LogCall(st, [], indent) + LogCall(st, [BOLD + "Stack Trace:"], indent) + FramesRecords(st, trace, indent)
  }

  /** Everything after the summary, at indent 1: the preview when the file opens, the trace, a blank line. */
  function Details(st: Style, file: string, errline: int, source: Option<seq<string>>, trace: seq<Frame>): seq<string> {
    PreviewRecords(st, file, errline, source, 1) + TraceRecords(st, trace, 1) + LogCall(st, [], 1)
  }

  /** The records `errorHandler` writes for an error it does not drop. */
  function ErrorReport(st: Style, errno: int, message: string, file: string, errline: int,
                       source: Option<seq<string>>, trace: seq<Frame>): seq<string> {
    Headline(st, Classify(errno), errno, message) + LogCall(st, [""], 0)
    + Details(st, file, errline, source, trace)
  }

  /** The records `handler` writes for an uncaught throwable. */
  function ExceptionReport(st: Style, e: Thrown, source: Option<seq<string>>): seq<string> {
    LogCall(st, [""], 0) + LevelRecords(st, Error, [ExceptionMessage(e)], 0) + LogCall(st, [""], 0)
    + Details(st, e.file, e.line, source, e.trace)
  }

  /** The output `out` is `base` followed by the records `w`, or just `base` when no stream is set. */
  predicate Wrote(on: bool, out: seq<string>, base: seq<string>, w: seq<string>) {
    if on then out == base + w else out == base
  }

  /** Two runs of writes, one after the other, write their records in that order. */
  lemma Step(on: bool, base: seq<string>, w: seq<string>, mid: seq<string>, r: seq<string>, out: seq<string>)
    requires Wrote(on, mid, base, w)
    requires Wrote(on, out, mid, r)
    ensures Wrote(on, out, base, w + r)
  {
    if on {
      assert base + w + r == base + (w + r);
    }
  }

  /** One record per preview line. */
  lemma {:induction false} PreviewLinesCount(st: Style, errline: int, code: seq<(int, string)>, indent: int)
    ensures |PreviewLines(st, errline, code, indent)| == |code|
    decreases |code|
  {
    if code != [] {
      PreviewLinesCount(st, errline, code[..|code| - 1], indent);
    }
  }

  /** A preview is its header and at most nine lines, and nothing when the file cannot be opened. */
  lemma PreviewRecordsBound(st: Style, file: string, errline: int, source: Option<seq<string>>, indent: int)
    ensures source.None? ==> PreviewRecords(st, file, errline, source, indent) == []
    ensures source.Some? ==>
              |PreviewRecords(st, file, errline, source, indent)| == 1 + |Window(source.value, errline)| <= 10
  {
    if source.Some? {
      PreviewLinesCount(st, errline, Window(source.value, errline), indent);
      WindowExact(source.value, errline);
    }
  }

  /** Every frame writes its line, and at most two more records for its array notes. */
  lemma {:induction false} FramesRecordsCount(st: Style, trace: seq<Frame>, indent: int)
    ensures |trace| <= |FramesRecords(st, trace, indent)| <= 3 * |trace|
    decreases |trace|
  {
    if trace != [] {
      var k := |trace| - 1;
      FramesRecordsCount(st, trace[..k], indent);
      FrameRecordsCount(st, FrameLine(st.palette, k, trace[k]), After(st.palette, trace[k].args), indent);
    }
  }

  /** A frame writes its line, then possibly its notes and a blank line. */
  lemma FrameRecordsCount(st: Style, line: string, after: string, indent: int)
    ensures |FrameRecords(st, line, after, indent)| == if Blank(after) then 1 else 3
  {
  }

  /** A frame without array arguments writes exactly its line. */
  lemma PlainFrameOneRecord(st: Style, k: nat, t: Frame, indent: int)
    requires forall i :: 0 <= i < |t.args| ==> !t.args[i].Arr?
    ensures FrameRecords(st, FrameLine(st.palette, k, t), After(st.palette, t.args), indent)
            == LogCall(st, [FrameLine(st.palette, k, t)], indent)
  {
    NoArraysNoNotes(st.palette, t.args);
  }

  lemma PreviewLinesStep(st: Style, errline: int, code: seq<(int, string)>, i: nat, indent: int)
    requires i < |code|
    ensures PreviewLines(st, errline, code[..i + 1], indent)
            == PreviewLines(st, errline, code[..i], indent)
               + LogCall(st, [PreviewLine(st.palette, code[i].0, code[i].1, errline)], indent)
  {
    assert code[..i + 1][..i] == code[..i];
  }

  lemma FramesRecordsStep(st: Style, trace: seq<Frame>, k: nat, indent: int)
    requires k < |trace|
    ensures FramesRecords(st, trace[..k + 1], indent)
            == FramesRecords(st, trace[..k], indent)
               + FrameRecords(st, FrameLine(st.palette, k, trace[k]), After(st.palette, trace[k].args), indent)
  {
    assert trace[..k + 1][..k] == trace[..k];
  }

  /** The handler object: one enable switch per category of raised error. */
  class Handler {
    var error: bool
    var warning: bool
    var notice: bool
    var deprecated: bool
    var strict: bool

    constructor ()
      ensures error && warning && notice && deprecated && strict
    {
      error, warning, notice, deprecated, strict := true, true, true, true, true;
    }

    /** Whether errors of category `c` are reported; unlisted numbers always are. */
    predicate Enabled(c: Category)
      reads this
    {
      match c
      case ErrorClass => error
      case WarningClass => warning
      case NoticeClass => notice
      case DeprecatedClass => deprecated
      case StrictClass => strict
      case OtherClass => true
    }

    /** The preview block of `errorHandler` and `handler`, when the file can be opened. */
    method ShowPreview(o: Output, file: string, errline: int, source: Option<seq<string>>)
      modifies o`indent, o`out
      ensures o.indent == if o.streamSet && source.Some? then Floor(old(o.indent)) else old(o.indent)
      ensures Wrote(o.streamSet, o.out, old(o.out), PreviewRecords(o.CurrentStyle(), file, errline, source, o.indent))
    {
      if source.None? {
        return;
      }
      ghost var st := o.CurrentStyle();
      var code, _ := ScanPreview(source.value, errline);
      o.Emit(Log, Texts([BOLD + "File Preview:", file + "(" + IntStr(errline) + ")"]));
      ghost var start := o.out;
      for i := 0 to |code|
        invariant o.indent == if o.streamSet then Floor(old(o.indent)) else old(o.indent)
        invariant Wrote(o.streamSet, o.out, start, PreviewLines(st, errline, code[..i], o.indent))
      {
        var line := PreviewLine(o.palette, code[i].0, code[i].1, errline);
        ghost var before := o.out;
        o.Emit(Log, Texts([line]));
        Step(o.streamSet, start, PreviewLines(st, errline, code[..i], o.indent), before, LogCall(st, [line], o.indent), o.out);
        PreviewLinesStep(st, errline, code, i, o.indent);
      }
      assert code[..|code|] == code;
      Step(o.streamSet, old(o.out), LogCall(st, [BOLD + "File Preview:", file + "(" + IntStr(errline) + ")"], o.indent),
           start, PreviewLines(st, errline, code, o.indent), o.out);
    }

    /** `MakePrettyException`: the `Stack Trace:` block, frame by frame. */
    method MakePrettyException(o: Output, trace: seq<Frame>)
      modifies o`indent, o`out
      ensures o.indent == if o.streamSet then Floor(old(o.indent)) else old(o.indent)
      ensures Wrote(o.streamSet, o.out, old(o.out), TraceRecords(o.CurrentStyle(), trace, o.indent))
    {
      ghost var st := o.CurrentStyle();
      o.Emit(Log, []);
      ghost var mid := o.out;
      o.Emit(Log, Texts([BOLD + "Stack Trace:"]));
      Step(o.streamSet, old(o.out), LogCall(st, [], o.indent), mid, LogCall(st, [BOLD + "Stack Trace:"], o.indent), o.out);
      ghost var start := o.out;
      for k := 0 to |trace|
        invariant o.indent == if o.streamSet then Floor(old(o.indent)) else old(o.indent)
        invariant Wrote(o.streamSet, o.out, start, FramesRecords(st, trace[..k], o.indent))
      {
        var line, after := BuildFrame(o.palette, k, trace[k]);
        ghost var before := o.out;
        ShowFrame(o, line, after);
        Step(o.streamSet, start, FramesRecords(st, trace[..k], o.indent), before, FrameRecords(st, line, after, o.indent), o.out);
        FramesRecordsStep(st, trace, k, o.indent);
      }
      assert trace[..|trace|] == trace;
      Step(o.streamSet, old(o.out), LogCall(st, [], o.indent) + LogCall(st, [BOLD + "Stack Trace:"], o.indent),
           start, FramesRecords(st, trace, o.indent), o.out);
    }

    /** One frame of `MakePrettyException`: its line, then its array notes one level deeper. */
    method ShowFrame(o: Output, line: string, after: string)
      requires o.streamSet ==> o.indent >= 0
      modifies o`indent, o`out
      ensures o.indent == old(o.indent)
      ensures Wrote(o.streamSet, o.out, old(o.out), FrameRecords(o.CurrentStyle(), line, after, o.indent))
    {
      ghost var st := o.CurrentStyle();
      o.Emit(Log, Texts([line]));
      ghost var lined := o.out;
      if !Blank(after) {
        o.indent := o.indent + 1;
        o.Emit(Log, Texts([after]));
        ghost var noted := o.out;
        o.Emit(Log, []);
        Step(o.streamSet, lined, LogCall(st, [after], old(o.indent) + 1), noted, LogCall(st, [], old(o.indent) + 1), o.out);
        Step(o.streamSet, old(o.out), LogCall(st, [line], old(o.indent)), lined,
             LogCall(st, [after], old(o.indent) + 1) + LogCall(st, [], old(o.indent) + 1), o.out);
        o.indent := o.indent - 1;
      }
    }

    /** A blank line, then the category's caption and the message at `level`, both at indent 0. */
    method Announce(o: Output, level: Level, caption: string, message: string)
      requires o.indent == 0
      modifies o`indent, o`out
      ensures o.indent == 0
      ensures Wrote(o.streamSet, o.out, old(o.out),
                    LogCall(o.CurrentStyle(), [""], 0) + LevelRecords(o.CurrentStyle(), level, [caption, message], 0))
    {
      o.Emit(Log, Texts([""]));
      ghost var mid := o.out;
      o.Emit(level, Texts([caption, message]));
      Step(o.streamSet, old(o.out), LogCall(o.CurrentStyle(), [""], 0), mid,
           LevelRecords(o.CurrentStyle(), level, [caption, message], 0), o.out);
    }

    /** `errorHandler`: reset the indent, drop a disabled category, else summary, preview and trace. */
    method ErrorHandler(o: Output, errno: int, message: string, errfile: string, errline: int,
                        files: map<string, seq<string>>, backtrace: seq<Frame>)
      modifies o`indent, o`out
      ensures !Enabled(Classify(errno)) ==> o.indent == 0 && o.out == old(o.out)
      ensures Enabled(Classify(errno)) ==> o.indent == 1
      ensures Enabled(Classify(errno)) ==>
                Wrote(o.streamSet, o.out, old(o.out),
                      ErrorReport(o.CurrentStyle(), errno, message, errfile, errline,
                                  Lookup(files, errfile), Caller(backtrace)))
    {
      ghost var st := o.CurrentStyle();
      o.indent := 0;
      var shown := Summarise(o, errno, message);
      if !shown {
        return;
      }
      ghost var headed := o.out;
      ghost var head := Headline(st, Classify(errno), errno, message);
      o.Emit(Log, Texts([""]));
      Step(o.streamSet, old(o.out), head, headed, LogCall(st, [""], 0), o.out);
      o.indent := o.indent + 1;
      ghost var summarised := o.out;
      ReportDetails(o, errfile, errline, Lookup(files, errfile), Caller(backtrace));
      Step(o.streamSet, old(o.out), head + LogCall(st, [""], 0), summarised,
           Details(st, errfile, errline, Lookup(files, errfile), Caller(backtrace)), o.out);
    }

    /** The switch of `errorHandler`: returns early for a disabled category, else writes the summary. */
    method Summarise(o: Output, errno: int, message: string) returns (shown: bool)
      requires o.indent == 0
      modifies o`indent, o`out
      ensures shown == Enabled(Classify(errno))
      ensures o.indent == 0
      ensures !shown ==> o.out == old(o.out)
      ensures shown ==> Wrote(o.streamSet, o.out, old(o.out), Headline(o.CurrentStyle(), Classify(errno), errno, message))
    {
      shown := true;
      match Classify(errno) {
        case ErrorClass =>
          if !error {
            return false;
          }
          Announce(o, Error, "Error:", message);
        case WarningClass =>
          if !warning {
            return false;
          }
          Announce(o, WarnColor, "Warning:", message);
        case NoticeClass =>
          if !notice {
            return false;
          }
          Announce(o, LogBold, "Notice:", message);
        case DeprecatedClass =>
          if !deprecated {
            return false;
          }
          Announce(o, WarnColor, "Deprecated:", message);
        case StrictClass =>
          if !strict {
            return false;
          }
          Announce(o, WarnColor, "Strict:", message);
        case OtherClass =>
          o.Emit(Error, Texts([IntStr(errno), message]));
      }
    }

    /** The part `errorHandler` and `handler` share once the indent is 1: preview, trace, blank line. */
    method ReportDetails(o: Output, file: string, errline: int, source: Option<seq<string>>, trace: seq<Frame>)
      requires o.indent == 1
      modifies o`indent, o`out
      ensures o.indent == 1
      ensures Wrote(o.streamSet, o.out, old(o.out), Details(o.CurrentStyle(), file, errline, source, trace))
    {
      ghost var st := o.CurrentStyle();
      ShowPreview(o, file, errline, source);
      ghost var previewed := o.out;
      MakePrettyException(o, trace);
      Step(o.streamSet, old(o.out), PreviewRecords(st, file, errline, source, 1), previewed, TraceRecords(st, trace, 1), o.out);
      ghost var traced := o.out;
      o.Emit(Log, []);
      Step(o.streamSet, old(o.out), PreviewRecords(st, file, errline, source, 1) + TraceRecords(st, trace, 1), traced,
           LogCall(st, [], 1), o.out);
    }

    /** `fatalHandler`: when an error was recorded, report it with defaults for its missing entries. */
    method FatalHandler(o: Output, last: Option<LastError>, files: map<string, seq<string>>, backtrace: seq<Frame>)
      modifies o`indent, o`out
      ensures last.None? ==> o.indent == old(o.indent) && o.out == old(o.out)
      ensures last.Some? ==>
                var r := Resolved(last.value);
                if Enabled(Classify(r.errno))
                then o.indent == 1
                     && Wrote(o.streamSet, o.out, old(o.out),
                              ErrorReport(o.CurrentStyle(), r.errno, r.message, r.file, r.line,
                                          Lookup(files, r.file), Caller(backtrace)))
                else o.indent == 0 && o.out == old(o.out)
    {
      var errno := E_CORE_ERROR;
      var errfile := "unknown file";
      var errstr := "shutdown";
      var errline := 0;
      if last.Some? {
        var error := last.value;
        if error.errType != 0 {
          errno := error.errType;
        }
        if !Blank(error.file) {
          errfile := error.file;
        }
        if error.line != 0 {
          errline := error.line;
        }
        if !Blank(error.message) {
          errstr := error.message;
        }
        ErrorHandler(o, errno, errstr, errfile, errline, files, backtrace);
      }
    }

    /** `handler`: the summary of an uncaught throwable, then preview and trace; never dropped. */
    method Handle(o: Output, e: Thrown, files: map<string, seq<string>>)
      modifies o`indent, o`out
      ensures o.indent == 1
      ensures Wrote(o.streamSet, o.out, old(o.out), ExceptionReport(o.CurrentStyle(), e, Lookup(files, e.file)))
    {
      ghost var st := o.CurrentStyle();
      var message := ExceptionMessage(e);
      o.indent := 0;
      o.Emit(Log, Texts([""]));
      ghost var mid := o.out;
      o.Emit(Error, Texts([message]));
      Step(o.streamSet, old(o.out), LogCall(st, [""], 0), mid, LevelRecords(st, Error, [message], 0), o.out);
      mid := o.out;
      o.Emit(Log, Texts([""]));
      ghost var head := LogCall(st, [""], 0) + LevelRecords(st, Error, [message], 0);
      Step(o.streamSet, old(o.out), head, mid, LogCall(st, [""], 0), o.out);
      o.indent := o.indent + 1;
      mid := o.out;
      ReportDetails(o, e.file, e.line, Lookup(files, e.file), e.trace);
      Step(o.streamSet, old(o.out), head + LogCall(st, [""], 0), mid,
           Details(st, e.file, e.line, Lookup(files, e.file), e.trace), o.out);
    }
  }
}
