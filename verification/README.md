# go-log in Dafny

A model of the decision logic of go-log, a small leveled-logging library for Go.
A `Logger` holds one target and a threshold. A message at a level reaches the target
iff `level >= threshold`. Loggers are built from options, which are applied in order
and stop at the first error. Targets are a console/file target, a syslog target, and a
recording target. The recording target stands in for the test suite's mock and keeps
every write it receives. A stream adapter presents a logger as a byte writer that logs
at one fixed level.

Every target is a value that keeps its output as a trace:

- a file target keeps the text in its stream;
- a syslog target keeps the calls it made on the daemon client;
- a recorder keeps `(level, message)` events.

Each operation is a pure function that returns the updated value. So "what reached the
target" is a plain statement about a sequence.

Modules follow the source files:

| module | file | content |
|---|---|---|
| `Wrappers` | — | `Result`, `Outcome` (Go's `(T, error)` and `error`) |
| `Levels` | log.go | levels, `Admits`, name parsing |
| `Files` | file.go | file target: open, line format, close rule |
| `Syslog` | syslog.go | syslog target: level → client call |
| `Uris` | utils.go | `uriaddr` |
| `Targets` | log.go | the `Writer`/`Target` contract over the three targets |
| `Log` | log.go | logger, options, `New`, `Print` and its wrappers |
| `StreamWriter` | writer.go | the byte-writer adapter |

The source files come from two API snapshots:

- **log.go snapshot.** `int` levels, a `Writer` interface, `SetWriter`, and the
  constructors `NewFileWriter`/`OpenFileWriter`/`NewSyslogWriter`/`NewRemoteWriter`.
- **Target snapshot.** file.go, syslog.go, writer.go and the tests use a `Level` type,
  `*Target` names, `SetTarget` and `LevelDebug`.

The model treats `Writer` and `Target` as one concept and uses the Target names.
Citations to log.go refer to the log.go snapshot; all other files are the Target
snapshot.

Three behaviours of the code are easy to miss:

- **Level names are not trimmed.** `Level(" debug")` selects Info (log.go:32-39). See
  `Levels.OtherNamesMeanInfo`.
- **An unknown URI scheme is not rejected.** `Target(uri)` passes any scheme that
  `url.Parse` accepts, other than `file`, to the remote syslog dialer (log.go:58-64). A
  failure then comes only from the parse or from the dialer. See
  `Log.BuildTargetFailures`.
- **`Target(uri)` builds its target when the option is created**, not when it is
  applied (log.go:48-66). So `Log.Option.WithTarget` holds the already-built `Result`.
  `Syslog` and `Console` build their targets when they are applied (log.go:77-89).

Go's `Option` is any `func(*Logger) error` (log.go:22). Options that callers write
themselves are `Log.Option.Custom`, a step from a logger to a changed logger or an error.

Levels are Go integers: `LevelDebug`, `LevelInfo` and `LevelError` are 0, 1 and 2
(the `iota` order). Any other integer is a valid argument too. The syslog target sends
every level other than Debug and Error to `info`.

## Model

| member | source | states |
|---|---|---|
| Levels.SeverityOrder | log.go:10-14 | Debug < Info < Error under the threshold test: each threshold admits exactly the named levels at or above it |
| Levels.Lower | log.go:32 | case folding keeps the length, folds each character independently, and leaves no upper-case ASCII letter |
| Levels.LowerIdempotent | log.go:32 | folding a folded name changes nothing |
| Levels.LevelFromName | log.go:31-39 | Debug iff the folded name is "debug", Error iff it is "error", Info for every other name |
| Levels.LevelNameRoundTrip | log.go:33-39 | parsing the name of Debug, Info or Error gives that level back |
| Levels.LevelNameCaseInsensitive | log.go:32-39 | a name and its folded form select the same level |
| Levels.OnlyFiveLetterNamesLeaveInfo | log.go:34-39 | any name whose length is not 5 selects Info |
| Levels.UpperCaseNamesAccepted | log.go:32-38 | "DEBUG" selects Debug and "Error" selects Error |
| Levels.OtherNamesMeanInfo | log.go:33-39 | "info", "" and " debug" select Info; nothing is trimmed |
| Files.OpenFileTarget | file.go:16-22 | opens with write-only, append and create flags and mode 0666; returns either the error or an open, closable target holding the file's existing text |
| Files.NewFileTarget | file.go:25-27 | wraps the given writer as-is, with the program name |
| Files.LineShape | file.go:31-32 | a line is the timestamp, a blank, the program name, ": ", the message and a newline, and the message can be read back from it |
| Files.Write | file.go:30-33 | an open stream gains exactly one line; a closed one is unchanged; the kind and open state are kept |
| Files.WriteIgnoresLevel | file.go:30-33 | the written output does not depend on the level |
| Files.WriteAppends | file.go:30-33 | earlier content is kept as a prefix and the new line follows it |
| Files.Close | file.go:36-46 | stdio: success, stream left open; closable: its close result, stream closed; other writers: success |
| Files.StdioUsableAfterClose | file.go:37-40 | after closing a stderr/stdout target, a write still lands |
| Files.ClosedFileDropsWrites | file.go:41-44 | after closing an opened file, writes add nothing |
| Syslog.NewSyslogTarget | syslog.go:13-19 | connects with priority LOG_INFO and the program name as tag; returns either the client's error or a target whose connection is held, has made no calls, and closes with the client's close result |
| Syslog.NewRemoteTarget | syslog.go:22-28 | dials the given network and address with LOG_INFO and the program tag; returns either the dialer's error or a held, unused connection with the client's close result |
| Syslog.Write | syslog.go:31-39 | exactly one call is appended and it carries the message: `debug` iff Debug, `err` iff Error, `info` iff any other level |
| Syslog.Close | syslog.go:42-44 | a held connection is closed and its close result returned; a dropped one gives success |
| Syslog.FirstCloseAfterWrites | syslog.go:13-19 | the first Close of a newly connected target, after any writes, returns the client's close result, and the target has made one call per write |
| Syslog.WriteAllKeepsConnection | syslog.go:31-39 | writes keep the connection held with the same close result and add one call each |
| Syslog.SecondCloseSucceeds | syslog.go:42-44 | a second Close succeeds whatever the first returned |
| Uris.UriAddr | utils.go:15-27 | on a parse error returns ("", "", err); otherwise returns the scheme unchanged, the host for tcp/udp and the path for every other scheme |
| Targets.Write | log.go:25-28 | a write keeps the target's variant; a recorder gains exactly the event |
| Targets.Close | log.go:25-28 | close keeps the variant; a recorder, a stdio file target and a file target over a plain writer succeed unchanged; a closable file returns its close result and is closed; syslog returns its connection's close result while connected and leaves the connection dropped; no output is lost |
| Log.BuildTarget | log.go:48-66 | "stderr"/"stdout" give the stdio file targets, "syslog" gives local syslog, a parse error is returned, scheme "file" opens the path, tcp/udp dial the host, and any other scheme dials the path |
| Log.BuildTargetFailures | log.go:58-66 | for a parsed URI, a failure is the open's (scheme "file") or the dialer's |
| Log.Apply | log.go:22-89 | Level sets only the threshold and never fails; Target replaces the target iff it was built, else returns its error; Syslog replaces the target iff the local connection succeeds, else returns its error; Console sets the stderr target; a caller-written option is its own step; of the library's options only Level changes the threshold |
| Log.LevelOptionOnlySetsThreshold | log.go:41-44 | `Level(name)` succeeds and gives the same target with the parsed threshold |
| Log.TargetOptionReplacesIffBuilt | log.go:68-73 | `Target(uri)` succeeds iff the build did; on success only the target changes; on failure the build error is returned |
| Log.ApplyAllAppend | log.go:103-109 | applying `a + b` is applying `a` and then, if that succeeded, `b` |
| Log.StopsAtFirstError | log.go:104-107 | once an option fails, the result is its error whatever options follow |
| Log.ErrorHasFirstCause | log.go:103-109 | every failed construction is the error of a first failing option, after an all-successful prefix |
| Log.New | log.go:97-110 | no options give stderr at Info; otherwise the result is the in-order, short-circuit application of the options to that default |
| Log.NewOrExit | log.go:113-120 | a logger iff construction succeeds; otherwise exit status 1 with the error text written to stderr |
| Log.SetTarget | log.go:123-125 | sets the target and keeps the threshold |
| Log.SetLevel | log.go:128-130 | sets the threshold and keeps the target |
| Log.SettersIndependent | log.go:123-130 | the two setters commute, and repeating one keeps only the last value |
| Log.Close | log.go:133-135 | returns the target's close result and keeps the closed target and the threshold |
| Log.PrintAfterClose | log.go:133-142 | after Close, an opened file takes no more lines, while a stderr/stdout target still takes every admitted line |
| Log.SyslogLoggerSecondClose | log.go:133-135 | closing a logger over syslog returns the connection's close result while held, and a second Close succeeds |
| Log.Print | log.go:138-142 | the threshold never changes, and a message below it leaves the logger unchanged |
| Log.PrintRecordsIffAdmitted | log.go:138-142 | the target gains exactly `(level, message)` iff `level >= threshold`, and nothing otherwise |
| Log.ThresholdExamples | log_test.go:63-79 | threshold Debug forwards all three levels; threshold Error drops Debug and Info |
| Log.PrintToFile | log.go:138-142 | through an open file target, an admitted message adds exactly its line and a filtered one adds nothing |
| Log.PrintToSyslog | log.go:138-142 | through a syslog target, an admitted message makes exactly the one client call Write makes (carrying the message, `debug` iff Debug, `err` iff Error) and a filtered one makes none |
| Log.FixedLevelCalls | log.go:150-194 | Debug/Info/Error print at their own level; Panic and Fatal print at Error and then panic with the message or exit with status 1 |
| Log.PrintAllRecords | log.go:138-142 | a run of prints leaves in the recorder exactly the admitted messages, in call order |
| Log.RaisingThresholdRefilters | log.go:138-142 | what a higher threshold lets through a run of prints is the lower threshold's output filtered again, and never more |
| Log.PrintAllAppendsLines | file.go:30-33 | a run of prints appends to a file exactly the lines of the admitted messages, in order, and keeps what was there |
| Log.DefaultLoggerScenario | log_test.go:42-61 | at the default threshold a Debug message is dropped, and Info and Error messages arrive in order |
| StreamWriter.BytesToString | writer.go:16 | the logged text has one character per written byte, with the same value |
| StreamWriter.BytesRoundTrip | writer.go:16 | converting the logged text back to bytes gives exactly the written bytes |
| StreamWriter.NewWriter | writer.go:10-12 | the adapter holds exactly the given level; the logger is supplied on each write |
| StreamWriter.Write | writer.go:15-18 | always returns the byte count and no error; never changes the threshold; leaves the logger unchanged when filtered |
| StreamWriter.WriteRecordsIffAdmitted | writer.go:15-18 | the target gains exactly (bound level, bytes as text) iff the bound level reaches the threshold |
| StreamWriter.WriterScenario | writer_test.go:8-30 | a Debug-bound adapter logs nothing at threshold Info; after the caller lowers the logger's threshold to Debug, the same adapter's write arrives and reports length 4 |

## Left out

- The operating system, the syslog client and `url.Parse` are fields of `Log.Env`: `openFile`, `syslogNew`, `syslogDial` and `parseUrl`. Their internals are not modelled. This includes the RFC 3164 message framing and `url.Parse`'s grammar.
- `prog()` (utils.go:10-12) reads `os.Args`. It is the parameter `Env.prog`.
- The wall clock and Go's `2006/01/02 15:04:05` time layout are not modelled. Every write takes the formatted timestamp `now` as an opaque string.
- `Printf`, `Panicf`, `Fatalf`, `Debugf`, `Infof` and `Errorf` are not separate members. Each one is `Print`, `Panic` or `Fatal` applied to the string that `fmt.Sprintf` produced, and `fmt.Sprintf` is not modelled.
- Panic unwinding and process exit are not modelled. `Panic`, `Fatal` and `NewOrExit` return an outcome value (`Panicking`, `Exiting`, `Exited`) after their print.
- `Files.Close`: closing an opened file twice returns the same stored close result. The operating system would report "file already closed" instead.
- `Syslog.Write`: does not model the client reconnecting when written to after Close, so the connection stays dropped and a later Close succeeds. The call log records every call the target makes.
- Stream identity is only the `Std` kind of a sink. Two targets over stderr each keep their own trace.
- Loggers and targets are values, not shared pointers. A caller that holds a target and also gives it to a logger must pass the updated value on itself. For example, closing its own copy is not seen in the logger's copy.
- `StreamWriter.NewWriter`: holds only the level, not the `*Logger`. The logger is the value the caller passes to each `StreamWriter.Write`, and the caller takes the updated logger back. Through that threading, a change the caller makes to the logger between writes is seen, as in the Go test.
- `Files.Write`: every write to an open stream lands in full. The error that `Fprintf` returns is discarded, so with a failing writer (disk full, broken pipe) Go may write part of the line or none of it.
- `Levels.Lower` folds only ASCII letters. This gives the same level as Go's Unicode `strings.ToLower`, because no other character folds into a letter of "debug" or "error".
- Go strings are byte strings. The model uses Dafny strings and turns each written byte into one character.
