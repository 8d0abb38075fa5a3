/** The console/file target (file.go): writes one timestamped line per
    message to a byte stream and closes only streams it may close. */
module Files {
  import opened Wrappers
  import opened Levels

  /** The two process-wide standard streams. */
  datatype StdStream = Stderr | Stdout

  /** What `Close` can tell about the writer a target wraps. */
  datatype SinkKind =
    | Std(stream: StdStream)          // os.Stderr or os.Stdout, compared by identity
    | Closer(closeResult: Outcome)    // also an io.Closer; closeResult is what its Close returns
    | NonCloser                       // a plain io.Writer

  /** A byte stream: its kind, whether it still accepts writes, and the text
      it holds. Writes always land at the end of `content`. */
  datatype Sink = Sink(kind: SinkKind, open: bool, content: string)

  /** A standard stream as this process's targets see it. */
  function StdSink(s: StdStream): Sink
  {
    Sink(Std(s), true, "")
  }

  /** The flags and permission bits passed to the operating system's open. */
  datatype OpenMode = OpenMode(writeOnly: bool, append: bool, create: bool, perm: int)

  /** os.O_WRONLY|os.O_APPEND|os.O_CREATE with permission 0666. */
  const AppendMode: OpenMode := OpenMode(true, true, true, 0x1B6)

  /** A file the operating system opened: the text already in it and what
      closing it will return. */
  datatype OsFile = OsFile(existing: string, closeResult: Outcome)

  datatype FileTarget = FileTarget(prog: string, sink: Sink)

  /** Open `file` for appending, creating it when absent. `openFile` stands
      for the operating system's open call and `prog` for the program name. */
  function OpenFileTarget(file: string, prog: string, openFile: (string, OpenMode) -> Result<OsFile>): (r: Result<FileTarget>)
    ensures r.Ok? <==> openFile(file, AppendMode).Ok?
    ensures r.Err? ==> r.error == openFile(file, AppendMode).error
    ensures r.Ok? ==> r.value.prog == prog
    ensures r.Ok? ==> r.value.sink.open && r.value.sink.kind.Closer?
    ensures r.Ok? ==> r.value.sink.content == openFile(file, AppendMode).value.existing
    ensures r.Ok? ==> r.value.sink.kind.closeResult == openFile(file, AppendMode).value.closeResult
  {
    match openFile(file, AppendMode)
    case Ok(f) => Ok(FileTarget(prog, Sink(Closer(f.closeResult), true, f.existing)))
    case Err(e) => Err(e)
  }

  /** Wrap an already open writer; nothing is opened, so nothing can fail. */
  function NewFileTarget(writer: Sink, prog: string): (t: FileTarget)
    ensures t.sink == writer && t.prog == prog
  {
    FileTarget(prog, writer)
  }

  /** The line written for one message; the level is not part of it. */
  function Line(now: string, prog: string, message: string): string
  {
    now + " " + prog + ": " + message + "\n"
  }

  /** The line starts with the timestamp, a blank, the program name and
      ": ", ends with a newline, and holds exactly the message in between. */
  lemma LineShape(now: string, prog: string, message: string)
    ensures var line := Line(now, prog, message);
      && |line| == |now| + |prog| + |message| + 4
      && line[..|now| + |prog| + 3] == now + " " + prog + ": "
      && line[|now| + |prog| + 3 .. |line| - 1] == message
      && line[|line| - 1] == '\n'
  {
  }

  /** Write one message. A write to a closed stream fails inside the
      formatting call and the failure is discarded, so nothing changes. */
  function Write(t: FileTarget, level: Level, message: string, now: string): (r: FileTarget)
    ensures r.prog == t.prog && r.sink.kind == t.sink.kind && r.sink.open == t.sink.open
    ensures t.sink.open ==> r.sink.content == t.sink.content + Line(now, t.prog, message)
    ensures !t.sink.open ==> r == t
  {
    if t.sink.open then t.(sink := t.sink.(content := t.sink.content + Line(now, t.prog, message)))
    else t
  }

  /** The level only gates whether Write is called; it never shows in the output. */
  lemma WriteIgnoresLevel(t: FileTarget, l1: Level, l2: Level, message: string, now: string)
    ensures Write(t, l1, message, now) == Write(t, l2, message, now)
  {
  }

  /** Writes append: what was in the stream is kept as a prefix and the
      new line follows it. */
  lemma WriteAppends(t: FileTarget, level: Level, message: string, now: string)
    requires t.sink.open
    ensures var c := Write(t, level, message, now).sink.content;
      && |c| > |t.sink.content|
      && c[..|t.sink.content|] == t.sink.content
      && c[|t.sink.content|..] == Line(now, t.prog, message)
  {
  }

  /** Close the target. Standard streams are left open and report success;
      a closable stream is closed and its close result returned; any other
      writer reports success. */
  function Close(t: FileTarget): (r: (Outcome, FileTarget))
    ensures t.sink.kind.Std? ==> r.0 == Pass && r.1 == t
    ensures t.sink.kind.Closer? ==> r.0 == t.sink.kind.closeResult
    ensures t.sink.kind.Closer? ==> !r.1.sink.open && r.1.sink.content == t.sink.content
    ensures t.sink.kind.NonCloser? ==> r.0 == Pass && r.1 == t
  {
    match t.sink.kind
    case Std(_) => (Pass, t)
    case Closer(result) => (result, t.(sink := t.sink.(open := false)))
    case NonCloser => (Pass, t)
  }

  /** A target over stderr or stdout can still be written after Close. */
  lemma StdioUsableAfterClose(s: StdStream, prog: string, level: Level, message: string, now: string)
    ensures var t := NewFileTarget(StdSink(s), prog);
      var closed := Close(t);
      && closed.0 == Pass
      && Write(closed.1, level, message, now).sink.content == Line(now, prog, message)
  {
  }

  /** After Close, an opened file takes no more lines. */
  lemma ClosedFileDropsWrites(t: FileTarget, level: Level, message: string, now: string)
    requires t.sink.kind.Closer?
    ensures var closed := Close(t).1;
      Write(closed, level, message, now).sink.content == t.sink.content
  {
  }
}
