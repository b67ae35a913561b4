/** The slog adapter (adapters/slogger/slogger.go): the adapter's own level
    filter, the level table into slog, the builders, and the call each
    logging method makes on the slog logger or handler. slog itself (its
    handlers and their output) is outside the model; a logger is the
    sequence of derivations (With, WithAttrs, WithGroup) applied to the
    handler it started from. */
module SLogger {
  import opened GoBytes
  import opened Levels
  import opened Keyvals

  /** One derivation of the slog handler. */
  datatype Derivation = WithArgs(keyvals: seq<Value>) | WithAttrsOf(attrs: seq<Attr>) | WithGroupOf(name: Bytes)

  /** The adapter. hasLogger and hasHandler are false for the zero adapter
      (nil *slog.Logger, nil slog.Handler); handler lists what was derived
      from the handler the adapter was built with. */
  datatype Adapter = Adapter(
    hasLogger: bool,
    hasHandler: bool,
    handler: seq<Derivation>,
    forcedLevel: Option<Level>,
    minLevel: Level,
    includeLogLevel: bool)

  /** The options the adapter reads itself; the handler and its options
      only reach slog. */
  datatype Options = Options(minLevel: Option<Level>)

  /** NewWithOptions and NewWithHandler: a logger over the handler, the
      minimum Trace unless MinLevel is given. */
  function NewWithOptions(opts: Options): (r: Adapter)
    ensures r.hasLogger && r.hasHandler && r.handler == [] && r.forcedLevel.None? && !r.includeLogLevel
    ensures r.minLevel == if opts.minLevel.Some? then opts.minLevel.value else TraceLevel
  {
    Adapter(true, true, [], None, if opts.minLevel.Some? then opts.minLevel.value else TraceLevel, false)
  }

  /** NewWithLogger: None stands for the no-op logger a nil *slog.Logger
      gives. */
  function NewWithLogger(hasLogger: bool): (r: Option<Adapter>)
    ensures r.None? <==> !hasLogger
    ensures r.Some? ==> r.value == NewWithOptions(Options(None))
  {
    if hasLogger then Some(Adapter(true, true, [], None, TraceLevel, false)) else None
  }

  // ---- Levels ----

  /** shouldLog: a nil logger and a forced Disabled let nothing through; a
      forced NoLevel is compared as Info and any other forced level replaces
      the entry's level; a Disabled level never passes. */
  function ShouldLog(a: Adapter, level: Level): (r: bool)
    ensures r ==> a.hasLogger && a.forcedLevel != Some(Disabled)
    ensures a.forcedLevel == None ==> (r <==> a.hasLogger && level != Disabled && level >= a.minLevel)
    ensures a.forcedLevel == Some(NoLevel) ==> (r <==> a.hasLogger && InfoLevel >= a.minLevel)
    ensures a.forcedLevel.Some? && a.forcedLevel.value != NoLevel ==>
      (r <==> a.hasLogger && a.forcedLevel.value != Disabled && a.forcedLevel.value >= a.minLevel)
  {
    if !a.hasLogger then false
    else
      var effective :=
        match a.forcedLevel
        case Some(f) => if f == NoLevel then InfoLevel else f
        case None => level;
      if a.forcedLevel == Some(Disabled) then false
      else effective != Disabled && effective >= a.minLevel
  }

  /** Under a minimum of Warn, Info is dropped and Error passes. */
  lemma ShouldLogUnderWarn(a: Adapter)
    requires a.hasLogger && a.forcedLevel.None? && a.minLevel == WarnLevel
    ensures !ShouldLog(a, InfoLevel) && ShouldLog(a, ErrorLevel)
  {
  }

  /** LogLevel: NoLevel is forced and keeps the minimum; any other level
      becomes the minimum and drops the forced level. includeLogLevel is
      kept either way. */
  function LogLevel(a: Adapter, level: Level): (r: Adapter)
    ensures level == NoLevel ==> r.forcedLevel == Some(NoLevel) && r.minLevel == a.minLevel
    ensures level != NoLevel ==> r.forcedLevel.None? && r.minLevel == level
    ensures r == a.(forcedLevel := r.forcedLevel, minLevel := r.minLevel)
  {
    if level == NoLevel then a.(forcedLevel := Some(level))
    else a.(forcedLevel := None, minLevel := level)
  }

  /** After LogLevel(m), m not NoLevel, a level passes iff it is m or
      above and not Disabled; LogLevel(Disabled) silences every named
      level (an unnamed one above Disabled still compares as greater). */
  lemma LogLevelThreshold(a: Adapter, m: Level, level: Level)
    requires m != NoLevel
    ensures ShouldLog(LogLevel(a, m), level) <==> a.hasLogger && level != Disabled && level >= m
    ensures IsNamed(level) ==> !ShouldLog(LogLevel(a, Disabled), level)
  {
  }

  function LogLevelFromEnv(a: Adapter, key: Bytes, lookup: Option<Bytes>): (r: Adapter)
    ensures !LevelFromEnv(key, lookup).1 ==> r == a
    ensures LevelFromEnv(key, lookup).1 ==> r == LogLevel(a, ParseLevel(lookup.value).0)
  {
    var (level, ok) := LevelFromEnv(key, lookup);
    if ok then LogLevel(a, level) else a
  }

  /** currentLevel: the forced level, else the minimum. */
  function CurrentLevel(a: Adapter): (r: Level)
    ensures a.forcedLevel.Some? ==> r == a.forcedLevel.value
    ensures a.forcedLevel.None? ==> r == a.minLevel
  {
    if a.forcedLevel.Some? then a.forcedLevel.value else a.minLevel
  }

  /** The level LogLevel set is the current level. */
  lemma CurrentLevelOfLogLevel(a: Adapter, level: Level)
    ensures CurrentLevel(LogLevel(a, level)) == level
  {
  }

  /** portLevelToSlog: logport's levels on slog's scale; Fatal and Panic
      share Error+4, NoLevel and unnamed levels read Info. */
  function PortLevelToSlog(level: Level): (r: Int64)
    ensures SlogDebug - 4 <= r <= SlogError + 4
    ensures !IsNamed(level) ==> r == SlogInfo
  {
    match level
    case -1 => SlogDebug - 4
    case 0 => SlogDebug
    case 1 => SlogInfo
    case 2 => SlogWarn
    case 3 => SlogError
    case 4 => SlogError + 4
    case 5 => SlogError + 4
    case 6 => SlogInfo
    case _ => SlogInfo
  }

  /** LevelFromSlog undoes portLevelToSlog from Trace to Fatal; Panic comes
      back as Fatal and NoLevel as Info. */
  lemma SlogLevelsRoundTrip(l: Level)
    ensures TraceLevel <= l <= FatalLevel ==> LevelFromSlog(PortLevelToSlog(l)) == l
    ensures LevelFromSlog(PortLevelToSlog(PanicLevel)) == FatalLevel
    ensures LevelFromSlog(PortLevelToSlog(NoLevel)) == InfoLevel
  {
  }

  lemma PortLevelToSlogMonotone(x: Level, y: Level)
    requires TraceLevel <= x <= y <= PanicLevel
    ensures PortLevelToSlog(x) <= PortLevelToSlog(y)
  {
  }

  // ---- Builders ----

  /** WithLogLevel: turns the loglevel key on. */
  function WithLogLevel(a: Adapter): (r: Adapter)
    ensures r == a.(includeLogLevel := true)
  {
    if a.includeLogLevel then a else a.(includeLogLevel := true)
  }

  lemma WithLogLevelIdempotent(a: Adapter)
    ensures WithLogLevel(WithLogLevel(a)) == WithLogLevel(a)
  {
  }

  /** With: nothing for no items or a nil logger; otherwise slog's
      Logger.With, whose handler the adapter then uses. */
  function With(a: Adapter, keyvals: seq<Value>): (r: Adapter)
    ensures keyvals == [] || !a.hasLogger ==> r == a
    ensures keyvals != [] && a.hasLogger ==> r == a.(hasHandler := true, handler := a.handler + [WithArgs(keyvals)])
  {
    if keyvals == [] || !a.hasLogger then a
    else a.(hasHandler := true, handler := a.handler + [WithArgs(keyvals)])
  }

  /** WithAttrs and WithGroup: derived from the handler, nothing without
      one; the group name goes to slog as it is. */
  function WithAttrs(a: Adapter, attrs: seq<Attr>): (r: Adapter)
    ensures !a.hasHandler ==> r == a
    ensures a.hasHandler ==> r == a.(hasLogger := true, handler := a.handler + [WithAttrsOf(attrs)])
  {
    if !a.hasHandler then a else a.(hasLogger := true, handler := a.handler + [WithAttrsOf(attrs)])
  }

  function WithGroup(a: Adapter, name: Bytes): (r: Adapter)
    ensures !a.hasHandler ==> r == a
    ensures a.hasHandler ==> r == a.(hasLogger := true, handler := a.handler + [WithGroupOf(name)])
  {
    if !a.hasHandler then a else a.(hasLogger := true, handler := a.handler + [WithGroupOf(name)])
  }

  /** No builder changes the level. */
  lemma BuildersKeepLevel(a: Adapter, keyvals: seq<Value>, attrs: seq<Attr>, name: Bytes)
    ensures CurrentLevel(With(a, keyvals)) == CurrentLevel(a)
    ensures CurrentLevel(WithAttrs(a, attrs)) == CurrentLevel(a)
    ensures CurrentLevel(WithGroup(a, name)) == CurrentLevel(a)
    ensures CurrentLevel(WithLogLevel(a)) == CurrentLevel(a)
  {
  }

  // ---- Logging ----

  /** appendLogLevelKeyvals: "loglevel" and the current level's name at the
      end when the key is on, the items untouched otherwise. */
  function AppendLogLevelKeyvals(a: Adapter, keyvals: seq<Value>): (r: seq<Value>)
    ensures !a.includeLogLevel ==> r == keyvals
    ensures a.includeLogLevel ==> r == keyvals + [Str("loglevel"), Str(LevelString(CurrentLevel(a)))]
  {
    if !a.includeLogLevel then keyvals
    else keyvals + [Str("loglevel"), Str(LevelString(CurrentLevel(a)))]
  }

  /** A call of Logger.Log: level on slog's scale, message, items. */
  datatype Call = Call(level: Int64, msg: Bytes, keyvals: seq<Value>)

  /** Logp: the level filtered by shouldLog, then logged at its slog
      counterpart. */
  function Logp(a: Adapter, level: Level, msg: Bytes, keyvals: seq<Value>): (r: Option<Call>)
    ensures r.Some? <==> ShouldLog(a, level)
    ensures r.Some? ==> r.value.level == PortLevelToSlog(level) && r.value.msg == msg
    ensures r.Some? ==> r.value.keyvals == AppendLogLevelKeyvals(a, keyvals)
  {
    if !ShouldLog(a, level) then None
    else Some(Call(PortLevelToSlog(level), msg, AppendLogLevelKeyvals(a, keyvals)))
  }

  /** A handler downstream reads back the level Logp was given, from Trace
      to Fatal. */
  lemma LogpLevelReadsBack(a: Adapter, level: Level, msg: Bytes, keyvals: seq<Value>)
    requires TraceLevel <= level <= FatalLevel && ShouldLog(a, level)
    ensures LevelFromSlog(Logp(a, level, msg, keyvals).value.level) == level
  {
  }

  /** Log: a slog level, filtered as LevelFromSlog reads it, and passed on
      unchanged. */
  function Log(a: Adapter, level: Int64, msg: Bytes, keyvals: seq<Value>): (r: Option<Call>)
    ensures r.Some? <==> ShouldLog(a, LevelFromSlog(level))
    ensures r.Some? ==> r.value == Call(level, msg, AppendLogLevelKeyvals(a, keyvals))
  {
    if !ShouldLog(a, LevelFromSlog(level)) then None
    else Some(Call(level, msg, AppendLogLevelKeyvals(a, keyvals)))
  }

  /** Logs: a level name that parses is used, anything else is NoLevel. */
  function Logs(a: Adapter, level: Bytes, msg: Bytes, keyvals: seq<Value>): (r: Option<Call>)
    ensures ParseLevel(level).1 ==> r == Logp(a, ParseLevel(level).0, msg, keyvals)
    ensures !ParseLevel(level).1 ==> r == Logp(a, NoLevel, msg, keyvals)
  {
    var (lvl, ok) := ParseLevel(level);
    if ok then Logp(a, lvl, msg, keyvals) else Logp(a, NoLevel, msg, keyvals)
  }

  /** What a level method does: its Logp call, then, for Fatal, exit and,
      for Panic, panic, whether or not anything was logged. */
  datatype Outcome = Outcome(call: Option<Call>, exits: bool, panics: bool)

  function Called(a: Adapter, m: Level, msg: Bytes, keyvals: seq<Value>): (r: Outcome)
    requires TraceLevel <= m <= PanicLevel
    ensures r.call == Logp(a, m, msg, keyvals)
    ensures r.exits <==> m == FatalLevel
    ensures r.panics <==> m == PanicLevel
  {
    Outcome(Logp(a, m, msg, keyvals), m == FatalLevel, m == PanicLevel)
  }

  /** Enabled is shouldLog of the level LevelFromSlog reads. */
  function Enabled(a: Adapter, level: Int64): (r: bool)
    ensures r <==> ShouldLog(a, LevelFromSlog(level))
  {
    ShouldLog(a, LevelFromSlog(level))
  }

  /** A record handed to the handler: level, message, attributes. */
  datatype Record = Record(level: Int64, msg: Bytes, attrs: seq<Attr>)

  /** Handle: filtered as Enabled is, nothing without a handler, and the
      loglevel attribute added last when it is on. */
  function Handle(a: Adapter, level: Int64, msg: Bytes, attrs: seq<Attr>): (r: Option<Record>)
    ensures r.Some? <==> Enabled(a, level) && a.hasHandler
    ensures r.Some? ==> r.value.level == level && r.value.msg == msg
    ensures r.Some? && !a.includeLogLevel ==> r.value.attrs == attrs
    ensures r.Some? && a.includeLogLevel ==>
      r.value.attrs == attrs + [Attr("loglevel", Leaf(Str(LevelString(CurrentLevel(a)))))]
  {
    if !ShouldLog(a, LevelFromSlog(level)) then None
    else if !a.hasHandler then None
    else if a.includeLogLevel then Some(Record(level, msg, attrs + [Attr("loglevel", Leaf(Str(LevelString(CurrentLevel(a)))))]))
    else Some(Record(level, msg, attrs))
  }
}
