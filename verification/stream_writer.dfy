/** The stream adapter (writer.go): presents a logger as a plain byte
    writer that logs everything written to it at one fixed level. */
module StreamWriter {
  import opened Wrappers
  import opened Levels
  import opened Targets
  import Log

  newtype Byte = b: int | 0 <= b < 256

  /** Go's `%s` of a byte slice: the same bytes as text, one character per byte. */
  function BytesToString(bytes: seq<Byte>): (s: string)
    ensures |s| == |bytes|
    ensures forall i :: 0 <= i < |bytes| ==> s[i] as int == bytes[i] as int
  {
    if bytes == [] then [] else [(bytes[0] as int) as char] + BytesToString(bytes[1..])
  }

  /** Text whose characters are all single bytes. */
  predicate IsByteString(s: string)
  {
    forall i :: 0 <= i < |s| ==> s[i] as int < 256
  }

  /** Go's `[]byte(s)` for such text. */
  function StringToBytes(s: string): (bytes: seq<Byte>)
    requires IsByteString(s)
    ensures |bytes| == |s|
    ensures forall i :: 0 <= i < |s| ==> bytes[i] as int == s[i] as int
  {
    if s == [] then [] else [s[0] as int as Byte] + StringToBytes(s[1..])
  }

  /** The message the adapter logs gives back exactly the bytes written. */
  lemma BytesRoundTrip(bytes: seq<Byte>)
    ensures IsByteString(BytesToString(bytes))
    ensures StringToBytes(BytesToString(bytes)) == bytes
  {
  }

  /** The adapter. In Go it holds a level and a pointer to a logger that
      its creator keeps using. Loggers here are values, so the adapter holds
      only the level. The logger it points to is the current logger value,
      which the caller passes to every Write and gets back updated. A
      SetLevel or SetTarget done by the caller between writes is therefore
      seen by the next write, as it is through the pointer. */
  datatype Writer = Writer(level: Level)

  /** `NewWriter(level, logger)`: bind the level. The logger is supplied on
      each write. */
  function NewWriter(level: Level): (w: Writer)
    ensures w.level == level
  {
    Writer(level)
  }

  /** The `(n, err)` pair Write returns, with the logger afterwards. */
  datatype Written = Written(n: int, err: Outcome, logger: Log.Logger)

  /** Log the bytes at the bound level through `lg` and report them all
      consumed, with no error, whether or not the logger let the message
      through. */
  function Write(w: Writer, lg: Log.Logger, msg: seq<Byte>, now: string): (r: Written)
    ensures r.n == |msg| && r.err == Pass
    ensures r.logger.threshold == lg.threshold
    ensures !Admits(lg.threshold, w.level) ==> r.logger == lg
  {
    Written(|msg|, Pass, Log.Print(lg, w.level, BytesToString(msg), now))
  }

  /** Through a recording target: a write records exactly the bound level
      and the written bytes as text iff the bound level reaches the
      logger's threshold, and nothing otherwise. */
  lemma WriteRecordsIffAdmitted(w: Writer, lg: Log.Logger, msg: seq<Byte>, now: string, es: seq<Event>)
    requires lg.target == Recorder(es)
    ensures var r := Write(w, lg, msg, now);
      && r.logger.target.Recorder?
      && (Admits(lg.threshold, w.level) <==>
            r.logger.target.events == es + [Event(w.level, BytesToString(msg))])
      && (!Admits(lg.threshold, w.level) ==> r.logger.target.events == es)
  {
  }

  /** The writer test: at the default threshold a Debug-bound adapter logs
      nothing. The caller then lowers the logger's threshold to Debug, and
      the same write through the same adapter arrives, with its full length
      reported. */
  lemma WriterScenario(env: Log.Env)
    ensures var msg: seq<Byte> := [0x74, 0x65, 0x73, 0x74];
      var lg := Log.SetTarget(Log.Default(env), Recorder([]));
      var wrt := NewWriter(LevelDebug);
      var first := Write(wrt, lg, msg, "t0");
      var lowered := Log.SetLevel(first.logger, LevelDebug);
      var second := Write(wrt, lowered, msg, "t1");
      && first.logger.target == Recorder([])
      && second.n == 4 && second.err == Pass
      && second.logger.target == Recorder([Event(LevelDebug, "test")])
  {
    var msg: seq<Byte> := [0x74, 0x65, 0x73, 0x74];
    assert BytesToString(msg) == "test";
  }
}
