/** The syslog target (syslog.go): forwards each message to a syslog daemon
    client, choosing the client call from the level. */
module Syslog {
  import opened Wrappers
  import opened Levels

  /** One call the target makes on the daemon client. */
  datatype DaemonCall = DebugCall(message: string) | ErrCall(message: string) | InfoCall(message: string)

  /** A daemon connection: what closing it returns, whether the client
      still holds it, and every call made on it. */
  datatype Conn = Conn(closeResult: Outcome, connected: bool, calls: seq<DaemonCall>)

  /** syslog.LOG_INFO, the default priority handed to the client. */
  const LogInfo: int := 6

  datatype SyslogTarget = SyslogTarget(conn: Conn)

  /** What the client reports about a connection it has just opened: what
      closing that connection will return. */
  datatype Daemon = Daemon(closeResult: Outcome)

  /** A connection the client has just opened: held, and nothing sent yet. */
  function Fresh(d: Daemon): (c: Conn)
    ensures c.connected && c.calls == [] && c.closeResult == d.closeResult
  {
    Conn(d.closeResult, true, [])
  }

  /** Connect to the local daemon, tagged with the program name.
      `connect` stands for syslog.New(priority, tag). */
  function NewSyslogTarget(prog: string, connect: (int, string) -> Result<Daemon>): (r: Result<SyslogTarget>)
    ensures r.Ok? <==> connect(LogInfo, prog).Ok?
    ensures r.Ok? ==> r.value.conn.connected && r.value.conn.calls == []
    ensures r.Ok? ==> r.value.conn.closeResult == connect(LogInfo, prog).value.closeResult
    ensures r.Err? ==> r.error == connect(LogInfo, prog).error
  {
    match connect(LogInfo, prog)
    case Ok(d) => Ok(SyslogTarget(Fresh(d)))
    case Err(e) => Err(e)
  }

  /** Dial a remote daemon over `network` at `raddr`, tagged with the program
      name. `dial` stands for syslog.Dial(network, raddr, priority, tag). */
  function NewRemoteTarget(network: string, raddr: string, prog: string,
                           dial: (string, string, int, string) -> Result<Daemon>): (r: Result<SyslogTarget>)
    ensures r.Ok? <==> dial(network, raddr, LogInfo, prog).Ok?
    ensures r.Ok? ==> r.value.conn.connected && r.value.conn.calls == []
    ensures r.Ok? ==> r.value.conn.closeResult == dial(network, raddr, LogInfo, prog).value.closeResult
    ensures r.Err? ==> r.error == dial(network, raddr, LogInfo, prog).error
  {
    match dial(network, raddr, LogInfo, prog)
    case Ok(d) => Ok(SyslogTarget(Fresh(d)))
    case Err(e) => Err(e)
  }

  /** Forward one message: exactly one client call carrying the message,
      `debug` for Debug, `err` for Error and `info` for every other level. */
  function Write(t: SyslogTarget, level: Level, message: string): (r: SyslogTarget)
    ensures r.conn.closeResult == t.conn.closeResult && r.conn.connected == t.conn.connected
    ensures |r.conn.calls| == |t.conn.calls| + 1
    ensures r.conn.calls[..|t.conn.calls|] == t.conn.calls
    ensures r.conn.calls[|t.conn.calls|].message == message
    ensures r.conn.calls[|t.conn.calls|].DebugCall? <==> level == LevelDebug
    ensures r.conn.calls[|t.conn.calls|].ErrCall? <==> level == LevelError
    ensures r.conn.calls[|t.conn.calls|].InfoCall? <==> level != LevelDebug && level != LevelError
  {
    var call :=
      if level == LevelDebug then DebugCall(message)
      else if level == LevelError then ErrCall(message)
      else InfoCall(message);
    t.(conn := t.conn.(calls := t.conn.calls + [call]))
  }

  /** Close delegates to the client: a held connection is closed and its
      result returned; once dropped, Close has nothing to close and
      succeeds. */
  function Close(t: SyslogTarget): (r: (Outcome, SyslogTarget))
    ensures t.conn.connected ==> r.0 == t.conn.closeResult && !r.1.conn.connected
    ensures !t.conn.connected ==> r == (Pass, t)
    ensures r.1.conn.calls == t.conn.calls && r.1.conn.closeResult == t.conn.closeResult
  {
    if t.conn.connected then (t.conn.closeResult, t.(conn := t.conn.(connected := false)))
    else (Pass, t)
  }

  /** Closing twice: the second Close succeeds whatever the first returned. */
  lemma SecondCloseSucceeds(t: SyslogTarget)
    ensures Close(Close(t).1).0 == Pass
  {
  }

  /** The first Close of a newly built target, after any number of writes,
      returns what the client says closing its connection returns; the
      target has made exactly one call per write. */
  lemma {:induction false} FirstCloseAfterWrites(prog: string, connect: (int, string) -> Result<Daemon>,
                                                writes: seq<(Level, string)>)
    requires connect(LogInfo, prog).Ok?
    ensures var t := WriteAll(NewSyslogTarget(prog, connect).value, writes);
      && Close(t).0 == connect(LogInfo, prog).value.closeResult
      && |t.conn.calls| == |writes|
  {
    WriteAllKeepsConnection(NewSyslogTarget(prog, connect).value, writes);
  }

  /** Write each `(level, message)` in turn. */
  function WriteAll(t: SyslogTarget, writes: seq<(Level, string)>): SyslogTarget
    decreases |writes|
  {
    if writes == [] then t else WriteAll(Write(t, writes[0].0, writes[0].1), writes[1..])
  }

  /** Writes neither drop the connection nor change its close result, and
      each adds one call. */
  lemma {:induction false} WriteAllKeepsConnection(t: SyslogTarget, writes: seq<(Level, string)>)
    ensures WriteAll(t, writes).conn.connected == t.conn.connected
    ensures WriteAll(t, writes).conn.closeResult == t.conn.closeResult
    ensures |WriteAll(t, writes).conn.calls| == |t.conn.calls| + |writes|
    decreases |writes|
  {
    if writes != [] {
      WriteAllKeepsConnection(Write(t, writes[0].0, writes[0].1), writes[1..]);
    }
  }
}
