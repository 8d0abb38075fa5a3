/** The logger (log.go): a target and a threshold, configuration options
    applied in order with short-circuit on the first error, filtering by
    severity and the fixed-level convenience calls. */
module Log {
  import opened Wrappers
  import opened Levels
  import opened Targets
  import Files
  import Syslog
  import Uris

  const TargetStderr: string := "stderr"
  const TargetStdout: string := "stdout"
  const TargetSyslog: string := "syslog"

  /** Everything outside the library that it calls: the program name
      (`prog()`), the operating system's open, the syslog client's two
      constructors and url.Parse. */
  datatype Env = Env(
    prog: string,
    openFile: (string, Files.OpenMode) -> Result<Files.OsFile>,
    syslogNew: (int, string) -> Result<Syslog.Daemon>,
    syslogDial: (string, string, int, string) -> Result<Syslog.Daemon>,
    parseUrl: string -> Result<Uris.Url>)

  datatype Logger = Logger(target: Target, threshold: Level)

  /** A file target over one of the standard streams. */
  function StdTarget(s: Files.StdStream, prog: string): Target
  {
    FileOut(Files.NewFileTarget(Files.StdSink(s), prog))
  }

  /** The logger `New` starts from: stderr at threshold Info. */
  function Default(env: Env): Logger
  {
    Logger(StdTarget(Files.Stderr, env.prog), LevelInfo)
  }

  function FromFile(r: Result<Files.FileTarget>): Result<Target>
  {
    match r
    case Ok(f) => Ok(FileOut(f))
    case Err(e) => Err(e)
  }

  function FromSyslog(r: Result<Syslog.SyslogTarget>): Result<Target>
  {
    match r
    case Ok(s) => Ok(SyslogOut(s))
    case Err(e) => Err(e)
  }

  /** Build the target a URI names: the three reserved names first, then a
      "file" scheme opens the path, and any other parsed scheme is handed to
      the remote syslog dialer. Errors come only from the parse, the open
      or the daemon connection. */
  function BuildTarget(uri: string, env: Env): (r: Result<Target>)
    ensures uri == TargetStderr ==> r == Ok(StdTarget(Files.Stderr, env.prog))
    ensures uri == TargetStdout ==> r == Ok(StdTarget(Files.Stdout, env.prog))
    ensures uri == TargetSyslog ==> r == FromSyslog(Syslog.NewSyslogTarget(env.prog, env.syslogNew))
    ensures uri != TargetStderr && uri != TargetStdout && uri != TargetSyslog ==>
      match env.parseUrl(uri)
      case Err(e) => r == Err(e)
      case Ok(u) =>
        if u.scheme == "file" then r == FromFile(Files.OpenFileTarget(u.path, env.prog, env.openFile))
        else if u.scheme == "tcp" || u.scheme == "udp" then
          r == FromSyslog(Syslog.NewRemoteTarget(u.scheme, u.host, env.prog, env.syslogDial))
        else r == FromSyslog(Syslog.NewRemoteTarget(u.scheme, u.path, env.prog, env.syslogDial))
  {
    if uri == TargetStderr then Ok(StdTarget(Files.Stderr, env.prog))
    else if uri == TargetStdout then Ok(StdTarget(Files.Stdout, env.prog))
    else if uri == TargetSyslog then FromSyslog(Syslog.NewSyslogTarget(env.prog, env.syslogNew))
    else
      var a := Uris.UriAddr(uri, env.parseUrl);
      if a.err.Fail? then Err(a.err.error)
      else if a.network == "file" then FromFile(Files.OpenFileTarget(a.address, env.prog, env.openFile))
      else FromSyslog(Syslog.NewRemoteTarget(a.network, a.address, env.prog, env.syslogDial))
  }

  /** A URI that is none of the reserved names and does not parse fails
      with the parse error; one that parses never fails for its scheme
      alone: a failure then is the open's or the dialer's. */
  lemma BuildTargetFailures(uri: string, env: Env)
    requires uri != TargetStderr && uri != TargetStdout && uri != TargetSyslog
    requires env.parseUrl(uri).Ok?
    ensures BuildTarget(uri, env).Err? ==>
      var u := env.parseUrl(uri).value;
      var addr := if u.scheme == "tcp" || u.scheme == "udp" then u.host else u.path;
      if u.scheme == "file" then env.openFile(u.path, Files.AppendMode).Err?
      else env.syslogDial(u.scheme, addr, Syslog.LogInfo, env.prog).Err?
  {
  }

  /** A configuration option. `Level(name)` and `Target(uri)` do their work
      when the option is created, so the option holds the chosen level or
      the already built target; `Syslog` and `Console` build theirs when
      applied. `Custom` is any other `func(*Logger) error` a caller writes:
      a step from a logger to a changed logger or an error. */
  datatype Option =
    | WithLevel(level: Level)
    | WithTarget(built: Result<Target>)
    | UseSyslog
    | UseConsole
    | Custom(step: Logger -> Result<Logger>)

  /** `Level(name)`: the threshold named by `name`. */
  function LevelOption(name: string): Option
  {
    WithLevel(LevelFromName(name))
  }

  /** `Target(uri)`: the target named by `uri`, built now. */
  function TargetOption(uri: string, env: Env): Option
  {
    WithTarget(BuildTarget(uri, env))
  }

  /** Apply one option to a logger. */
  function Apply(o: Option, lg: Logger, env: Env): (r: Result<Logger>)
    ensures o.WithLevel? ==> r.Ok? && r.value.target == lg.target && r.value.threshold == o.level
    ensures o.WithTarget? ==> (r.Ok? <==> o.built.Ok?)
    ensures o.WithTarget? && r.Ok? ==> r.value.target == o.built.value && r.value.threshold == lg.threshold
    ensures o.WithTarget? && r.Err? ==> r.error == o.built.error
    ensures o.UseSyslog? ==>
      var built := FromSyslog(Syslog.NewSyslogTarget(env.prog, env.syslogNew));
      && (r.Ok? <==> built.Ok?)
      && (r.Ok? ==> r.value == Logger(built.value, lg.threshold))
      && (r.Err? ==> r.error == built.error)
    ensures o.UseConsole? ==> r == Ok(Logger(StdTarget(Files.Stderr, env.prog), lg.threshold))
    ensures o.Custom? ==> r == o.step(lg)
    ensures r.Ok? && !o.Custom? ==> r.value.threshold == lg.threshold || o.WithLevel?
  {
    match o
    case WithLevel(l) => Ok(lg.(threshold := l))
    case WithTarget(built) =>
      if built.Ok? then Ok(lg.(target := built.value)) else Err(built.error)
    case UseSyslog =>
      var built := FromSyslog(Syslog.NewSyslogTarget(env.prog, env.syslogNew));
      if built.Ok? then Ok(lg.(target := built.value)) else Err(built.error)
    case UseConsole => Ok(lg.(target := StdTarget(Files.Stderr, env.prog)))
    case Custom(step) => step(lg)
  }

  /** `Level(name)` always succeeds and changes only the threshold. */
  lemma LevelOptionOnlySetsThreshold(name: string, lg: Logger, env: Env)
    ensures Apply(LevelOption(name), lg, env) == Ok(Logger(lg.target, LevelFromName(name)))
  {
  }

  /** `Target(uri)` replaces the target exactly when the target was built,
      and otherwise reports the build error and leaves the logger alone. */
  lemma TargetOptionReplacesIffBuilt(uri: string, lg: Logger, env: Env)
    ensures var r := Apply(TargetOption(uri, env), lg, env);
      var built := BuildTarget(uri, env);
      && (r.Ok? <==> built.Ok?)
      && (r.Ok? ==> r.value == Logger(built.value, lg.threshold))
      && (r.Err? ==> r.error == built.error)
  {
  }

  /** Apply options in order, stopping at the first that fails. */
  function ApplyAll(lg: Logger, options: seq<Option>, env: Env): Result<Logger>
    decreases |options|
  {
    if options == [] then Ok(lg)
    else
      match Apply(options[0], lg, env)
      case Err(e) => Err(e)
      case Ok(next) => ApplyAll(next, options[1..], env)
  }

  /** Applying `a + b` is applying `a` and then, if it succeeded, `b`. */
  lemma {:induction false} ApplyAllAppend(lg: Logger, a: seq<Option>, b: seq<Option>, env: Env)
    ensures ApplyAll(lg, a + b, env) ==
      match ApplyAll(lg, a, env)
      case Ok(mid) => ApplyAll(mid, b, env)
      case Err(e) => Err(e)
    decreases |a|
  {
    if a == [] {
      assert a + b == b;
    } else {
      assert (a + b)[0] == a[0];
      assert (a + b)[1..] == a[1..] + b;
      match Apply(a[0], lg, env)
      case Err(e) =>
      case Ok(next) => ApplyAllAppend(next, a[1..], b, env);
    }
  }

  /** Option `i` is the first to fail, with error `e`. */
  predicate FailsAt(lg: Logger, options: seq<Option>, env: Env, i: nat, e: string)
    requires i < |options|
  {
    match ApplyAll(lg, options[..i], env)
    case Ok(mid) => Apply(options[i], mid, env) == Err(e)
    case Err(_) => false
  }

  /** Once an option fails, the result is its error whatever follows: no
      later option is applied. */
  lemma {:induction false} StopsAtFirstError(lg: Logger, options: seq<Option>, env: Env, i: nat, e: string)
    requires i < |options| && FailsAt(lg, options, env, i, e)
    ensures ApplyAll(lg, options, env) == Err(e)
  {
    var mid := ApplyAll(lg, options[..i], env).value;
    assert options == options[..i] + options[i..];
    ApplyAllAppend(lg, options[..i], options[i..], env);
    assert options[i..][0] == options[i];
  }

  /** Every failure of a run of options is the failure of its first
      failing option. */
  lemma {:induction false} ErrorHasFirstCause(lg: Logger, options: seq<Option>, env: Env)
    requires ApplyAll(lg, options, env).Err?
    ensures exists i: nat :: i < |options| && FailsAt(lg, options, env, i, ApplyAll(lg, options, env).error)
    decreases |options|
  {
    var e := ApplyAll(lg, options, env).error;
    assert options[..0] == [];
    match Apply(options[0], lg, env)
    case Err(e0) =>
      assert FailsAt(lg, options, env, 0, e);
    case Ok(next) =>
      var rest := options[1..];
      ErrorHasFirstCause(next, rest, env);
      var j: nat :| j < |rest| && FailsAt(next, rest, env, j, e);
      assert options[..j + 1] == [options[0]] + rest[..j];
      ApplyAllAppend(lg, [options[0]], rest[..j], env);
      assert [options[0]][1..] == [];
      assert ApplyAll(lg, [options[0]], env) == Ok(next);
      assert options[j + 1] == rest[j];
      assert FailsAt(lg, options, env, j + 1, e);
  }

  /** `New(options...)` as written: start from the default logger and apply
      each option in turn, returning the first error and no logger. */
  method New(options: seq<Option>, env: Env) returns (r: Result<Logger>)
    ensures options == [] ==> r == Ok(Default(env))
    ensures r == ApplyAll(Default(env), options, env)
  {
    var logger := Default(env);
    var i := 0;
    while i < |options|
      invariant 0 <= i <= |options|
      invariant ApplyAll(Default(env), options, env) == ApplyAll(logger, options[i..], env)
    {
      assert options[i..][0] == options[i] && options[i..][1..] == options[i + 1..];
      var step := Apply(options[i], logger, env);
      if step.Err? {
        return Err(step.error);
      }
      logger := step.value;
      i := i + 1;
    }
    return Ok(logger);
  }

  /** What `NewOrExit` leads to: a running logger, or process exit with a
      status after writing the error text to stderr. */
  datatype Startup = Running(logger: Logger) | Exited(status: int, stderr: string)

  /** `NewOrExit(options...)`: like New, but a construction error is written
      to stderr and ends the process with status 1. */
  method NewOrExit(options: seq<Option>, env: Env) returns (s: Startup)
    ensures s.Running? <==> ApplyAll(Default(env), options, env).Ok?
    ensures s.Running? ==> s.logger == ApplyAll(Default(env), options, env).value
    ensures s.Exited? ==> s.status == 1 && s.stderr == ApplyAll(Default(env), options, env).error
  {
    var r := New(options, env);
    if r.Err? {
      return Exited(1, r.error);
    }
    return Running(r.value);
  }

  /** `SetTarget` (`SetWriter` in log.go): replace the target. The previous
      target is not closed. */
  function SetTarget(lg: Logger, t: Target): (r: Logger)
    ensures r.target == t && r.threshold == lg.threshold
  {
    lg.(target := t)
  }

  function SetLevel(lg: Logger, l: Level): (r: Logger)
    ensures r.threshold == l && r.target == lg.target
  {
    lg.(threshold := l)
  }

  /** The two setters touch disjoint fields, so they commute, and a second
      call of either overrides the first. */
  lemma SettersIndependent(lg: Logger, t1: Target, t2: Target, l1: Level, l2: Level)
    ensures SetLevel(SetTarget(lg, t1), l1) == SetTarget(SetLevel(lg, l1), t1)
    ensures SetTarget(SetTarget(lg, t1), t2) == SetTarget(lg, t2)
    ensures SetLevel(SetLevel(lg, l1), l2) == SetLevel(lg, l2)
  {
  }

  /** Close the logger by closing its target. */
  function Close(lg: Logger): (r: (Outcome, Logger))
    ensures r.0 == Targets.Close(lg.target).0
    ensures r.1.target == Targets.Close(lg.target).1
    ensures r.1.threshold == lg.threshold
    ensures lg.target.Recorder? ==> r == (Pass, lg)
  {
    var c := Targets.Close(lg.target);
    (c.0, lg.(target := c.1))
  }

  /** The logger keeps its closed target: after Close, an opened file takes
      no more lines, while a stderr or stdout target still takes every
      admitted line. */
  lemma PrintAfterClose(lg: Logger, level: Level, message: string, now: string)
    requires lg.target.FileOut?
    ensures var closed := Close(lg).1;
      lg.target.file.sink.kind.Closer? ==>
        Print(closed, level, message, now).target.file.sink.content == lg.target.file.sink.content
    ensures var closed := Close(lg).1;
      lg.target.file.sink.kind.Std? && lg.target.file.sink.open && Admits(lg.threshold, level) ==>
        Print(closed, level, message, now).target.file.sink.content
          == lg.target.file.sink.content + Files.Line(now, lg.target.file.prog, message)
  {
  }

  /** Closing a logger over syslog twice: the second Close succeeds. */
  lemma SyslogLoggerSecondClose(lg: Logger)
    requires lg.target.SyslogOut?
    ensures Close(Close(lg).1).0 == Pass
    ensures Close(lg).0 == (if lg.target.syslog.conn.connected then lg.target.syslog.conn.closeResult else Pass)
  {
  }

  /** Log `message` at `level`: the target sees it iff the level reaches the
      threshold. */
  function Print(lg: Logger, level: Level, message: string, now: string): (r: Logger)
    ensures r.threshold == lg.threshold
    ensures !Admits(lg.threshold, level) ==> r == lg
  {
    if level >= lg.threshold then lg.(target := Targets.Write(lg.target, level, message, now)) else lg
  }

  /** Through a recording target: Print appends exactly `(level, message)`
      when the level reaches the threshold and records nothing otherwise. */
  lemma PrintRecordsIffAdmitted(lg: Logger, level: Level, message: string, now: string, es: seq<Event>)
    requires lg.target == Recorder(es)
    ensures var r := Print(lg, level, message, now);
      && r.target.Recorder?
      && (Admits(lg.threshold, level) <==> r.target.events == es + [Event(level, message)])
      && (!Admits(lg.threshold, level) <==> r.target.events == es)
  {
  }

  /** At threshold Debug all three levels get through; at threshold Error
      Debug and Info do not. */
  lemma ThresholdExamples(lg: Logger, message: string, now: string)
    ensures forall l :: l in {LevelDebug, LevelInfo, LevelError} ==>
      Print(SetLevel(lg, LevelDebug), l, message, now).target == Targets.Write(lg.target, l, message, now)
    ensures Print(SetLevel(lg, LevelError), LevelDebug, message, now) == SetLevel(lg, LevelError)
    ensures Print(SetLevel(lg, LevelError), LevelInfo, message, now) == SetLevel(lg, LevelError)
  {
  }

  /** Through a file target: an admitted message adds exactly its line to
      an open stream; a filtered one adds nothing. */
  lemma PrintToFile(lg: Logger, level: Level, message: string, now: string)
    requires lg.target.FileOut? && lg.target.file.sink.open
    ensures var f := lg.target.file;
      Print(lg, level, message, now).target.file.sink.content ==
        f.sink.content + (if Admits(lg.threshold, level) then Files.Line(now, f.prog, message) else "")
  {
  }

  /** Through a syslog target: an admitted message makes exactly one client
      call; a filtered one makes none. */
  lemma PrintToSyslog(lg: Logger, level: Level, message: string, now: string)
    requires lg.target.SyslogOut?
    ensures var before := lg.target.syslog.conn.calls;
      var after := Print(lg, level, message, now).target.syslog.conn.calls;
      && |after| == |before| + (if Admits(lg.threshold, level) then 1 else 0)
      && after[..|before|] == before
      && (Admits(lg.threshold, level) ==> after == Syslog.Write(lg.target.syslog, level, message).conn.calls)
      && (Admits(lg.threshold, level) ==> after[|before|].message == message)
      && (Admits(lg.threshold, level) ==> (after[|before|].DebugCall? <==> level == LevelDebug))
      && (Admits(lg.threshold, level) ==> (after[|before|].ErrCall? <==> level == LevelError))
  {
  }

  function Debug(lg: Logger, message: string, now: string): Logger
  {
    Print(lg, LevelDebug, message, now)
  }

  function Info(lg: Logger, message: string, now: string): Logger
  {
    Print(lg, LevelInfo, message, now)
  }

  function Error(lg: Logger, message: string, now: string): Logger
  {
    Print(lg, LevelError, message, now)
  }

  /** How a Panic or Fatal call ends: a panic whose value carries the
      message, or process exit with a status. */
  datatype Escalation = Panicking(reason: string) | Exiting(status: int)

  /** Log at Error, then panic with the message. */
  function Panic(lg: Logger, message: string, now: string): (r: (Logger, Escalation))
  {
    (Print(lg, LevelError, message, now), Panicking(message))
  }

  /** Log at Error, then exit with status 1. */
  function Fatal(lg: Logger, message: string, now: string): (r: (Logger, Escalation))
  {
    (Print(lg, LevelError, message, now), Exiting(1))
  }

  /** The convenience calls are Print at a fixed level; Panic and Fatal log
      exactly like Error and differ only in how they end. */
  lemma FixedLevelCalls(lg: Logger, message: string, now: string, es: seq<Event>)
    requires lg.target == Recorder(es)
    ensures Debug(lg, message, now).target.events == es + (if Admits(lg.threshold, LevelDebug) then [Event(LevelDebug, message)] else [])
    ensures Info(lg, message, now).target.events == es + (if Admits(lg.threshold, LevelInfo) then [Event(LevelInfo, message)] else [])
    ensures Error(lg, message, now).target.events == es + (if Admits(lg.threshold, LevelError) then [Event(LevelError, message)] else [])
    ensures Panic(lg, message, now).0 == Error(lg, message, now) && Panic(lg, message, now).1 == Panicking(message)
    ensures Fatal(lg, message, now).0 == Error(lg, message, now) && Fatal(lg, message, now).1 == Exiting(1)
  {
  }

  /** One Print request with its clock reading. */
  datatype Call = Call(level: Level, message: string, now: string)

  /** Issue a run of Print calls in order. */
  function PrintAll(lg: Logger, calls: seq<Call>): Logger
    decreases |calls|
  {
    if calls == [] then lg
    else PrintAll(Print(lg, calls[0].level, calls[0].message, calls[0].now), calls[1..])
  }

  /** The events a recording target at `threshold` should keep: the admitted
      calls, in order. */
  function Admitted(threshold: Level, calls: seq<Call>): seq<Event>
    decreases |calls|
  {
    if calls == [] then []
    else
      (if Admits(threshold, calls[0].level) then [Event(calls[0].level, calls[0].message)] else [])
      + Admitted(threshold, calls[1..])
  }

  /** The lines a file target with program name `prog` should gain: one per
      admitted call, in order. */
  function AdmittedLines(threshold: Level, prog: string, calls: seq<Call>): string
    decreases |calls|
  {
    if calls == [] then ""
    else
      (if Admits(threshold, calls[0].level) then Files.Line(calls[0].now, prog, calls[0].message) else "")
      + AdmittedLines(threshold, prog, calls[1..])
  }

  /** The events of `es` whose level reaches `threshold`, in order. */
  function KeepAtLeast(threshold: Level, es: seq<Event>): (kept: seq<Event>)
    ensures |kept| <= |es|
    ensures forall e :: e in kept <==> e in es && Admits(threshold, e.level)
    decreases |es|
  {
    if es == [] then []
    else (if Admits(threshold, es[0].level) then [es[0]] else []) + KeepAtLeast(threshold, es[1..])
  }

  /** Raising the threshold only removes messages: what a higher threshold
      lets through is exactly what a lower one lets through, filtered again
      by the higher one, so it is never more. */
  lemma {:induction false} RaisingThresholdRefilters(lower: Level, higher: Level, calls: seq<Call>)
    requires lower <= higher
    ensures KeepAtLeast(higher, Admitted(lower, calls)) == Admitted(higher, calls)
    ensures |Admitted(higher, calls)| <= |Admitted(lower, calls)|
    decreases |calls|
  {
    if calls != [] {
      var c := calls[0];
      var head := if Admits(lower, c.level) then [Event(c.level, c.message)] else [];
      var tail := Admitted(lower, calls[1..]);
      RaisingThresholdRefilters(lower, higher, calls[1..]);
      KeepAtLeastAppend(higher, head, tail);
    }
  }

  /** Filtering distributes over concatenation. */
  lemma {:induction false} KeepAtLeastAppend(threshold: Level, a: seq<Event>, b: seq<Event>)
    ensures KeepAtLeast(threshold, a + b) == KeepAtLeast(threshold, a) + KeepAtLeast(threshold, b)
    decreases |a|
  {
    if a == [] {
      assert a + b == b;
    } else {
      var head := if Admits(threshold, a[0].level) then [a[0]] else [];
      assert (a + b)[0] == a[0];
      assert (a + b)[1..] == a[1..] + b;
      assert KeepAtLeast(threshold, a + b) == head + KeepAtLeast(threshold, a[1..] + b);
      KeepAtLeastAppend(threshold, a[1..], b);
      assert KeepAtLeast(threshold, a) == head + KeepAtLeast(threshold, a[1..]);
    }
  }

  /** A run of Prints through a recording target appends exactly the
      admitted messages, in call order, and keeps the threshold. */
  lemma {:induction false} PrintAllRecords(lg: Logger, calls: seq<Call>, es: seq<Event>)
    requires lg.target == Recorder(es)
    ensures PrintAll(lg, calls).threshold == lg.threshold
    ensures PrintAll(lg, calls).target == Recorder(es + Admitted(lg.threshold, calls))
    decreases |calls|
  {
    if calls != [] {
      var c := calls[0];
      var next := Print(lg, c.level, c.message, c.now);
      var head := if Admits(lg.threshold, c.level) then [Event(c.level, c.message)] else [];
      assert next.target == Recorder(es + head);
      PrintAllRecords(next, calls[1..], es + head);
      assert es + head + Admitted(lg.threshold, calls[1..]) == es + Admitted(lg.threshold, calls);
    }
  }

  /** A run of Prints through an open file target appends exactly the lines
      of the admitted messages, in call order, and never rewrites what the
      file held before. */
  lemma {:induction false} PrintAllAppendsLines(lg: Logger, calls: seq<Call>)
    requires lg.target.FileOut? && lg.target.file.sink.open
    ensures PrintAll(lg, calls).target.FileOut?
    ensures PrintAll(lg, calls).target.file.sink.content ==
      lg.target.file.sink.content + AdmittedLines(lg.threshold, lg.target.file.prog, calls)
    decreases |calls|
  {
    if calls != [] {
      var c := calls[0];
      var f := lg.target.file;
      var next := Print(lg, c.level, c.message, c.now);
      var head := if Admits(lg.threshold, c.level) then Files.Line(c.now, f.prog, c.message) else "";
      assert next.target.file.sink.content == f.sink.content + head;
      PrintAllAppendsLines(next, calls[1..]);
      assert f.sink.content + head + AdmittedLines(lg.threshold, f.prog, calls[1..])
          == f.sink.content + AdmittedLines(lg.threshold, f.prog, calls);
    }
  }

  /** The print test: with the default threshold Info, a Debug message is
      dropped and Info and Error messages arrive. */
  lemma DefaultLoggerScenario(env: Env)
    ensures var lg := SetTarget(Default(env), Recorder([]));
      var r := Error(Info(Debug(lg, "skip", "t0"), "hello", "t1"), "boom", "t2");
      r.target == Recorder([Event(LevelInfo, "hello"), Event(LevelError, "boom")])
  {
  }
}
