/** The phuslu/log adapter (adapters/phuslu/phuslu.go): the level tables
    between logport and phuslu, the adapter's builders, and the entry each
    logging call writes. Of phuslu itself the model keeps only the
    logger's level and which entries it hands out: a levelled entry
    exists when its level is at least the logger's, an entry without a
    level (Logger.Log) always does. Encoding and writing are left out. */
module Phuslu {
  import opened GoBytes
  import opened Levels
  import opened Keyvals
  import Walk

  // ---- phuslu levels ----

  /** plog.Level, a uint32. */
  type PhusluLevel = i: int | 0 <= i < 0x1_0000_0000

  const PTrace: PhusluLevel := 1
  const PDebug: PhusluLevel := 2
  const PInfo: PhusluLevel := 3
  const PWarn: PhusluLevel := 4
  const PError: PhusluLevel := 5
  const PFatal: PhusluLevel := 6
  const PPanic: PhusluLevel := 7

  /** portLevelToPhuslu: Trace and NoLevel become Trace, Disabled the level
      above Panic, an unnamed level Info. */
  function PortLevelToPhuslu(level: Level): (r: PhusluLevel)
    ensures PTrace <= r <= PPanic + 1
    ensures r == PTrace <==> level == TraceLevel || level == NoLevel
    ensures r == PPanic + 1 <==> level == Disabled
    ensures !IsNamed(level) ==> r == PInfo
  {
    match level
    case -1 => PTrace
    case 6 => PTrace
    case 0 => PDebug
    case 1 => PInfo
    case 2 => PWarn
    case 3 => PError
    case 4 => PFatal
    case 5 => PPanic
    case 7 => PPanic + 1
    case _ => PInfo
  }

  /** phusluLevelToPort: phuslu's seven levels, anything else Info. */
  function PhusluLevelToPort(level: PhusluLevel): (r: Level)
    ensures TraceLevel <= r <= PanicLevel
    ensures PTrace <= level <= PPanic ==> r == level - 2
    ensures !(PTrace <= level <= PPanic) ==> r == InfoLevel
  {
    match level
    case 1 => TraceLevel
    case 2 => DebugLevel
    case 3 => InfoLevel
    case 4 => WarnLevel
    case 5 => ErrorLevel
    case 6 => FatalLevel
    case 7 => PanicLevel
    case _ => InfoLevel
  }

  /** Through phuslu and back, Trace to Panic come back as themselves;
      NoLevel comes back as Trace and Disabled as Info. */
  lemma LevelTablesRoundTrip(l: Level)
    ensures TraceLevel <= l <= PanicLevel ==> PhusluLevelToPort(PortLevelToPhuslu(l)) == l
    ensures PhusluLevelToPort(PortLevelToPhuslu(NoLevel)) == TraceLevel
    ensures PhusluLevelToPort(PortLevelToPhuslu(Disabled)) == InfoLevel
  {
  }

  lemma PortLevelToPhusluMonotone(x: Level, y: Level)
    requires TraceLevel <= x <= y <= PanicLevel
    ensures PortLevelToPhuslu(x) <= PortLevelToPhuslu(y)
  {
  }

  /** slogLevelToPhuslu: the half-open bands of slog's Debug, Info, Warn,
      Error and Error+4. */
  function SlogLevelToPhuslu(level: Int64): (r: PhusluLevel)
    ensures PTrace <= r <= PFatal
    ensures r == PTrace <==> level < SlogDebug
    ensures r == PFatal <==> level >= SlogError + 4
  {
    if level < SlogDebug then PTrace
    else if level < SlogInfo then PDebug
    else if level < SlogWarn then PInfo
    else if level < SlogError then PWarn
    else if level < SlogError + 4 then PError
    else PFatal
  }

  /** The bands are those of LevelFromSlog. */
  lemma SlogLevelToPhusluIsLevelFromSlog(level: Int64)
    ensures SlogLevelToPhuslu(level) == PortLevelToPhuslu(LevelFromSlog(level))
  {
  }

  lemma SlogLevelToPhusluMonotone(x: Int64, y: Int64)
    requires x <= y
    ensures SlogLevelToPhuslu(x) <= SlogLevelToPhuslu(y)
  {
  }

  // ---- The adapter ----

  /** The adapter. hasLogger is false for a nil *plog.Logger and
      loggerLevel is then meaningless; baseKeyvals is the flat key/value
      list With and WithAttrs have gathered. */
  datatype Adapter = Adapter(
    hasLogger: bool,
    loggerLevel: PhusluLevel,
    baseKeyvals: seq<Value>,
    groups: seq<Bytes>,
    forcedLevel: Option<Level>,
    includeLogLevel: bool)

  /** NewWithOptions: a logger at Info, then Configure (when given) may
      change its level. */
  function NewWithOptions(configure: Option<PhusluLevel -> PhusluLevel>): (r: Adapter)
    ensures r.hasLogger && r.baseKeyvals == [] && r.groups == [] && r.forcedLevel.None? && !r.includeLogLevel
    ensures configure.None? ==> r.loggerLevel == PInfo
    ensures configure.Some? ==> r.loggerLevel == configure.value(PInfo)
  {
    Adapter(true, if configure.Some? then configure.value(PInfo) else PInfo, [], [], None, false)
  }

  /** NewFromLogger: the logger as it is, nil included. */
  function NewFromLogger(hasLogger: bool, level: PhusluLevel): (r: Adapter)
    ensures r.hasLogger == hasLogger && r.baseKeyvals == [] && r.forcedLevel.None? && !r.includeLogLevel
    ensures hasLogger ==> r.loggerLevel == level
  {
    Adapter(hasLogger, level, [], [], None, false)
  }

  /** forceNoLevel: a logger and a forced NoLevel. */
  predicate ForceNoLevel(a: Adapter)
    ensures ForceNoLevel(a) ==> a.hasLogger && CurrentLevel(a) == NoLevel
  {
    a.hasLogger && a.forcedLevel == Some(NoLevel)
  }

  /** LogLevel: nothing without a logger; NoLevel is forced and leaves the
      logger alone; any other level goes to a copy of the logger and drops
      the forced level. */
  function LogLevel(a: Adapter, level: Level): (r: Adapter)
    ensures !a.hasLogger ==> r == a
    ensures a.hasLogger && level == NoLevel ==> r == a.(forcedLevel := Some(NoLevel))
    ensures a.hasLogger && level != NoLevel ==> r == a.(loggerLevel := PortLevelToPhuslu(level), forcedLevel := None)
  {
    if !a.hasLogger then a
    else if level == NoLevel then a.(forcedLevel := Some(level))
    else a.(loggerLevel := PortLevelToPhuslu(level), forcedLevel := None)
  }

  /** LogLevel(NoLevel) is exactly what switches forceNoLevel on. */
  lemma ForceNoLevelOfLogLevel(a: Adapter, level: Level)
    requires a.hasLogger
    ensures ForceNoLevel(LogLevel(a, level)) <==> level == NoLevel
  {
  }

  function LogLevelFromEnv(a: Adapter, key: Bytes, lookup: Option<Bytes>): (r: Adapter)
    ensures !LevelFromEnv(key, lookup).1 ==> r == a
    ensures LevelFromEnv(key, lookup).1 ==> r == LogLevel(a, ParseLevel(lookup.value).0)
  {
    var (level, ok) := LevelFromEnv(key, lookup);
    if ok then LogLevel(a, level) else a
  }

  /** currentLevel: the forced level, else Info without a logger, else the
      logger's level read back. */
  function CurrentLevel(a: Adapter): (r: Level)
    ensures a.forcedLevel.Some? ==> r == a.forcedLevel.value
    ensures a.forcedLevel.None? && !a.hasLogger ==> r == InfoLevel
    ensures a.forcedLevel.None? && a.hasLogger ==> r == PhusluLevelToPort(a.loggerLevel)
  {
    if a.forcedLevel.Some? then a.forcedLevel.value
    else if !a.hasLogger then InfoLevel
    else PhusluLevelToPort(a.loggerLevel)
  }

  /** With a logger, LogLevel's level is the current level, except that
      Disabled reads back as Info. */
  lemma CurrentLevelOfLogLevel(a: Adapter, level: Level)
    requires a.hasLogger && IsNamed(level)
    ensures level != Disabled ==> CurrentLevel(LogLevel(a, level)) == level
    ensures CurrentLevel(LogLevel(a, Disabled)) == InfoLevel
  {
  }

  /** WithLogLevel: turns the loglevel field on. */
  function WithLogLevel(a: Adapter): (r: Adapter)
    ensures r == a.(includeLogLevel := true)
  {
    if a.includeLogLevel then a else a.(includeLogLevel := true)
  }

  lemma WithLogLevelIdempotent(a: Adapter)
    ensures WithLogLevel(WithLogLevel(a)) == WithLogLevel(a)
  {
  }

  /** With: nothing for no items or without a logger; otherwise the items,
      normalised outside any group, are added to the base list. */
  method With(a: Adapter, keyvals: seq<Value>) returns (r: Adapter)
    ensures keyvals == [] || !a.hasLogger ==> r == a
    ensures r == a.(baseKeyvals := a.baseKeyvals + (if a.hasLogger then Flatten(Fields(keyvals, [], 0, false)) else []))
  {
    if |keyvals| == 0 || !a.hasLogger {
      return a;
    }
    var addition := Walk.NormalizeKeyvals(keyvals, []);
    if |addition| == 0 {
      return a;
    }
    r := a.(baseKeyvals := a.baseKeyvals + addition);
  }

  /** The base list With builds is a normal form: walked again it gives
      the pairs it was built from. */
  lemma WithBaseIsNormal(keyvals: seq<Value>, n: nat)
    ensures Fields(Flatten(Fields(keyvals, [], 0, false)), [], n, true) == Fields(keyvals, [], 0, false)
  {
    FieldsOfFlatten(Fields(keyvals, [], 0, false), n, true);
  }

  /** WithAttrs: nothing for no attributes; otherwise their key/value
      pairs, under the adapter's groups, are added to the base list. */
  method WithAttrs(a: Adapter, attrs: seq<Attr>) returns (r: Adapter)
    ensures r == a.(baseKeyvals := a.baseKeyvals + Flatten(AttrsFields(attrs, a.groups)))
  {
    if |attrs| == 0 {
      return a;
    }
    var addition := Walk.AttrsToKeyvals(attrs, a.groups);
    if |addition| == 0 {
      return a;
    }
    r := a.(baseKeyvals := a.baseKeyvals + addition);
  }

  /** WithGroup: an empty name changes nothing; otherwise it is appended. */
  function WithGroup(a: Adapter, name: Bytes): (r: Adapter)
    ensures name == [] ==> r == a
    ensures name != [] ==> r == a.(groups := a.groups + [name])
  {
    if name == [] then a else a.(groups := AppendGroup(a.groups, name))
  }

  // ---- Entries ----

  /** An entry as written: its phuslu level (None for Logger.Log), the
      message, the lists given to KeysAndValues, and the fields written
      one by one. */
  datatype Entry = Entry(level: Option<PhusluLevel>, msg: Bytes, keyvals: seq<Value>, fields: seq<Field>)

  /** Logger.Log, Logger.Debug and the rest: whether phuslu hands out an
      entry for a level. */
  predicate Admits(a: Adapter, level: Option<PhusluLevel>)
  {
    level.None? || level.value >= a.loggerLevel
  }

  /** appendLogLevel: the loglevel field last, when it is on. */
  function AppendLogLevel(a: Adapter, fields: seq<Field>): (r: seq<Field>)
    ensures !a.includeLogLevel ==> r == fields
    ensures a.includeLogLevel ==> r == fields + [Field("loglevel", Str(LevelString(CurrentLevel(a))))]
  {
    if a.includeLogLevel then fields + [Field("loglevel", Str(LevelString(CurrentLevel(a))))] else fields
  }

  /** logEntry: the base list, the call's items as fields (every field
      counted), the loglevel field, the message. */
  function EntryOf(a: Adapter, level: Option<PhusluLevel>, msg: Bytes, keyvals: seq<Value>): Entry {
    Entry(level, msg, a.baseKeyvals, AppendLogLevel(a, Fields(keyvals, a.groups, 0, true)))
  }

  /** The result of a call: the entry, if any, and whether the adapter
      itself panicked. */
  datatype Outcome = Outcome(entry: Option<Entry>, panics: bool)

  /** The entry a level method asks phuslu for: none without a logger;
      Logger.Log under a forced NoLevel, except for Fatal and Panic, which
      always ask for their own level. */
  function EntryLevel(a: Adapter, m: Level): (r: Option<PhusluLevel>)
    requires TraceLevel <= m <= PanicLevel
    ensures ForceNoLevel(a) && m < FatalLevel ==> r.None?
    ensures !ForceNoLevel(a) || m >= FatalLevel ==> r == Some(PortLevelToPhuslu(m))
  {
    if ForceNoLevel(a) && m < FatalLevel then None else Some(PortLevelToPhuslu(m))
  }

  /** Trace, Debug, Info, Warn, Error, Fatal and Panic (m says which).
      Without a logger nothing is written and Panic panics; Panic also
      panics when phuslu hands out no entry. */
  function Called(a: Adapter, m: Level, msg: Bytes, keyvals: seq<Value>): (r: Outcome)
    requires TraceLevel <= m <= PanicLevel
    ensures r.entry.Some? <==> a.hasLogger && Admits(a, EntryLevel(a, m))
    ensures r.panics <==> m == PanicLevel && r.entry.None?
    ensures r.entry.Some? ==> r.entry.value == EntryOf(a, EntryLevel(a, m), msg, keyvals)
  {
    if !a.hasLogger || !Admits(a, EntryLevel(a, m)) then Outcome(None, m == PanicLevel)
    else Outcome(Some(EntryOf(a, EntryLevel(a, m), msg, keyvals)), false)
  }

  /** logEntry for an entry phuslu handed out. */
  method LogEntry(a: Adapter, level: Option<PhusluLevel>, msg: Bytes, keyvals: seq<Value>) returns (e: Entry)
    ensures e == EntryOf(a, level, msg, keyvals)
  {
    var fields: seq<Field> := [];
    if |keyvals| > 0 {
      var count;
      fields, count := Walk.AppendEntryFields([], keyvals, a.groups, 0);
    }
    e := Entry(level, msg, a.baseKeyvals, AppendLogLevel(a, fields));
  }

  method Call(a: Adapter, m: Level, msg: Bytes, keyvals: seq<Value>) returns (o: Outcome)
    requires TraceLevel <= m <= PanicLevel
    ensures o == Called(a, m, msg, keyvals)
  {
    if !a.hasLogger {
      return Outcome(None, m == PanicLevel);
    }
    var level := EntryLevel(a, m);
    if !Admits(a, level) {
      return Outcome(None, m == PanicLevel);
    }
    var e := LogEntry(a, level, msg, keyvals);
    o := Outcome(Some(e), false);
  }

  /** In a written entry, a trailing value with no key is the last field
      before the optional loglevel field, keyed arg<n> under the groups, n
      the number of fields written before it in the call. */
  lemma TrailingKeyCountsEveryField(a: Adapter, m: Level, msg: Bytes, keyvals: seq<Value>)
    requires TraceLevel <= m <= PanicLevel && EndsTrailing(keyvals)
    requires Called(a, m, msg, keyvals).entry.Some?
    ensures var fs := Called(a, m, msg, keyvals).entry.value.fields;
      var n := if a.includeLogLevel then |fs| - 1 else |fs|;
      0 < n <= |fs| && fs[n - 1] == Field(JoinAttrKey(a.groups, ArgKey(n - 1)), keyvals[|keyvals| - 1])
  {
    var written := Fields(keyvals, a.groups, 0, true);
    TrailingKeyCountsFields(keyvals, a.groups, 0);
    var fs := Called(a, m, msg, keyvals).entry.value.fields;
    assert fs == AppendLogLevel(a, written);
    assert fs[..|written|] == written;
  }

  /** After LogLevel(m), m from Trace to Panic, a level method below Fatal
      writes iff its level is at least m; LogLevel(Disabled) stops them all,
      Fatal included, and makes Panic panic without writing. */
  lemma LogLevelThreshold(a: Adapter, m: Level, k: Level, msg: Bytes, keyvals: seq<Value>)
    requires a.hasLogger && TraceLevel <= m <= PanicLevel && TraceLevel <= k <= PanicLevel
    ensures Called(LogLevel(a, m), k, msg, keyvals).entry.Some? <==> k >= m
    ensures Called(LogLevel(a, Disabled), k, msg, keyvals).entry.None?
    ensures Called(LogLevel(a, Disabled), PanicLevel, msg, keyvals).panics
  {
    if k >= m {
      PortLevelToPhusluMonotone(m, k);
    } else {
      PortLevelToPhusluMonotone(k, m);
      assert PortLevelToPhuslu(k) != PortLevelToPhuslu(m);
    }
  }

  /** Under a forced NoLevel every method below Fatal writes an entry with
      no level, whatever the logger's level. */
  lemma ForcedNoLevelWritesPlain(a: Adapter, m: Level, msg: Bytes, keyvals: seq<Value>)
    requires ForceNoLevel(a) && TraceLevel <= m < FatalLevel
    ensures Called(a, m, msg, keyvals).entry == Some(EntryOf(a, None, msg, keyvals))
  {
  }

  // ---- Logp ----

  /** What Logp does with a level: a method from Trace to Panic, the plain
      entry (NoLevel), nothing (Disabled), or Info (anything else). */
  function Logged(a: Adapter, level: Level, msg: Bytes, keyvals: seq<Value>): (r: Outcome)
    ensures level == Disabled ==> r == Outcome(None, false)
    ensures level == NoLevel ==> r == Outcome(if a.hasLogger then Some(EntryOf(a, None, msg, keyvals)) else None, false)
    ensures TraceLevel <= level <= PanicLevel ==> r == Called(a, level, msg, keyvals)
    ensures !IsNamed(level) ==> r == Called(a, InfoLevel, msg, keyvals)
  {
    if TraceLevel <= level <= PanicLevel then Called(a, level, msg, keyvals)
    else if level == NoLevel then Outcome(if a.hasLogger then Some(EntryOf(a, None, msg, keyvals)) else None, false)
    else if level == Disabled then Outcome(None, false)
    else Called(a, InfoLevel, msg, keyvals)
  }

  method Logp(a: Adapter, level: Level, msg: Bytes, keyvals: seq<Value>) returns (o: Outcome)
    ensures o == Logged(a, level, msg, keyvals)
  {
    if TraceLevel <= level <= PanicLevel {
      o := Call(a, level, msg, keyvals);
    } else if level == NoLevel {
      if !a.hasLogger {
        return Outcome(None, false);
      }
      var e := LogEntry(a, None, msg, keyvals);
      o := Outcome(Some(e), false);
    } else if level == Disabled {
      o := Outcome(None, false);
    } else {
      o := Call(a, InfoLevel, msg, keyvals);
    }
  }

  /** Log: the slog level read by LevelFromSlog. */
  method Log(a: Adapter, level: Int64, msg: Bytes, keyvals: seq<Value>) returns (o: Outcome)
    ensures o == Logged(a, LevelFromSlog(level), msg, keyvals)
  {
    o := Logp(a, LevelFromSlog(level), msg, keyvals);
  }

  /** Logs: a level name that parses is used, anything else is NoLevel. */
  method Logs(a: Adapter, level: Bytes, msg: Bytes, keyvals: seq<Value>) returns (o: Outcome)
    ensures ParseLevel(level).1 ==> o == Logged(a, ParseLevel(level).0, msg, keyvals)
    ensures !ParseLevel(level).1 ==> o == Logged(a, NoLevel, msg, keyvals)
  {
    var (lvl, ok) := ParseLevel(level);
    if ok {
      o := Logp(a, lvl, msg, keyvals);
    } else {
      o := Logp(a, NoLevel, msg, keyvals);
    }
  }

  // ---- slog ----

  /** Enabled: no logger, false; a forced NoLevel, true; otherwise the
      record's phuslu level against the logger's. */
  function Enabled(a: Adapter, level: Int64): (r: bool)
    ensures !a.hasLogger ==> !r
    ensures ForceNoLevel(a) ==> r
    ensures a.hasLogger && !ForceNoLevel(a) ==> (r <==> SlogLevelToPhuslu(level) >= a.loggerLevel)
  {
    if !a.hasLogger then false
    else if ForceNoLevel(a) then true
    else SlogLevelToPhuslu(level) >= a.loggerLevel
  }

  /** The entry Handle writes: the plain entry under a forced NoLevel, else
      one at the record's phuslu level when phuslu hands it out; the base
      list and the record's attributes, flattened under the groups, go to
      KeysAndValues, the loglevel field is written last. */
  function Handled(a: Adapter, level: Int64, msg: Bytes, attrs: seq<Attr>): (r: Option<Entry>)
    ensures r.Some? ==> r.value.msg == msg && r.value.fields == AppendLogLevel(a, [])
    ensures r.Some? ==> r.value.keyvals == a.baseKeyvals + Flatten(AttrsFields(attrs, a.groups))
    ensures r.Some? ==> r.value.level == if ForceNoLevel(a) then None else Some(SlogLevelToPhuslu(level))
  {
    if !a.hasLogger then None
    else
      var entryLevel := if ForceNoLevel(a) then None else Some(SlogLevelToPhuslu(level));
      if !Admits(a, entryLevel) then None
      else Some(Entry(entryLevel, msg, a.baseKeyvals + Flatten(AttrsFields(attrs, a.groups)), AppendLogLevel(a, [])))
  }

  /** Handle writes exactly when Enabled says it would. */
  lemma HandleAgreesWithEnabled(a: Adapter, level: Int64, msg: Bytes, attrs: seq<Attr>)
    ensures Handled(a, level, msg, attrs).Some? <==> Enabled(a, level)
  {
  }

  method Handle(a: Adapter, level: Int64, msg: Bytes, attrs: seq<Attr>) returns (e: Option<Entry>)
    ensures e == Handled(a, level, msg, attrs)
  {
    if !a.hasLogger {
      return None;
    }
    var entryLevel := if ForceNoLevel(a) then None else Some(SlogLevelToPhuslu(level));
    if !Admits(a, entryLevel) {
      return None;
    }
    var kvs: seq<Value> := [];
    if |attrs| > 0 {
      kvs := Walk.AttrsToKeyvals(attrs, a.groups);
    }
    e := Some(Entry(entryLevel, msg, a.baseKeyvals + kvs, AppendLogLevel(a, [])));
  }
}
