/** The target contract: every destination takes `Write(level, message)` and
    `Close()`. Besides the two real targets, `Recorder` keeps every write it
    receives, like the test suite's mock target. */
module Targets {
  import opened Wrappers
  import opened Levels
  import Files
  import Syslog

  /** One write as a target receives it. */
  datatype Event = Event(level: Level, message: string)

  datatype Target =
    | FileOut(file: Files.FileTarget)
    | SyslogOut(syslog: Syslog.SyslogTarget)
    | Recorder(events: seq<Event>)

  /** Hand one message to the target. `now` is the wall-clock reading, which
      only the file target uses. */
  function Write(t: Target, level: Level, message: string, now: string): (r: Target)
    ensures r.FileOut? == t.FileOut? && r.SyslogOut? == t.SyslogOut? && r.Recorder? == t.Recorder?
    ensures t.Recorder? ==> r.events == t.events + [Event(level, message)]
  {
    match t
    case FileOut(f) => FileOut(Files.Write(f, level, message, now))
    case SyslogOut(s) => SyslogOut(Syslog.Write(s, level, message))
    case Recorder(es) => Recorder(es + [Event(level, message)])
  }

  /** Release the target; the variant is kept and only its open state may change. */
  function Close(t: Target): (r: (Outcome, Target))
    ensures r.1.FileOut? == t.FileOut? && r.1.SyslogOut? == t.SyslogOut? && r.1.Recorder? == t.Recorder?
    ensures t.Recorder? ==> r == (Pass, t)
    ensures t.SyslogOut? ==> r.0 == (if t.syslog.conn.connected then t.syslog.conn.closeResult else Pass)
    ensures t.SyslogOut? ==> !r.1.syslog.conn.connected && r.1.syslog.conn.calls == t.syslog.conn.calls
    ensures t.FileOut? ==> r.1.file.prog == t.file.prog && r.1.file.sink.content == t.file.sink.content
    ensures t.FileOut? && t.file.sink.kind.Std? ==> r == (Pass, t)
    ensures t.FileOut? && t.file.sink.kind.Closer? ==> r.0 == t.file.sink.kind.closeResult && !r.1.file.sink.open
    ensures t.FileOut? && t.file.sink.kind.NonCloser? ==> r == (Pass, t)
  {
    match t
    case FileOut(f) => var c := Files.Close(f); (c.0, FileOut(c.1))
    case SyslogOut(s) => var c := Syslog.Close(s); (c.0, SyslogOut(c.1))
    case Recorder(_) => (Pass, t)
  }
}
