/** The zap adapter (adapters/zaplogger/zap.go): the level tables between
    logport and zapcore, the adapter's own level filter, the builders, and
    the entry each logging call hands to zap. zap itself (its core, its
    encoders, its own exit and panic on Fatal and Panic) is outside the
    model; a zap logger is the list of fields With has attached to it. */
module ZapLogger {
  import opened GoBytes
  import opened Levels
  import opened Keyvals
  import Walk

  // ---- zapcore levels ----

  /** zapcore.Level, an int8. zap puts Panic below Fatal. */
  type ZapLevel = Int8

  const ZDebug: ZapLevel := -1
  const ZInfo: ZapLevel := 0
  const ZWarn: ZapLevel := 1
  const ZError: ZapLevel := 2
  const ZDPanic: ZapLevel := 3
  const ZPanic: ZapLevel := 4
  const ZFatal: ZapLevel := 5
  const ZInvalid: ZapLevel := 6

  /** portLevelToZap: Trace, Debug and NoLevel become Debug, Disabled the
      invalid level, an unnamed level Info. */
  function PortLevelToZap(level: Level): (r: ZapLevel)
    ensures ZDebug <= r <= ZInvalid && r != ZDPanic
    ensures r == ZDebug <==> level in {TraceLevel, DebugLevel, NoLevel}
    ensures r == ZInvalid <==> level == Disabled
    ensures !IsNamed(level) ==> r == ZInfo
  {
    match level
    case -1 => ZDebug
    case 0 => ZDebug
    case 6 => ZDebug
    case 1 => ZInfo
    case 2 => ZWarn
    case 3 => ZError
    case 4 => ZFatal
    case 5 => ZPanic
    case 7 => ZInvalid
    case _ => ZInfo
  }

  /** zapLevelToPort: DPanic reads as Fatal, the invalid level as Disabled,
      anything else unknown as Info. */
  function ZapLevelToPort(level: ZapLevel): (r: Level)
    ensures IsNamed(r) && r != TraceLevel && r != NoLevel
    ensures r == FatalLevel <==> level == ZDPanic || level == ZFatal
  {
    match level
    case -1 => DebugLevel
    case 0 => InfoLevel
    case 1 => WarnLevel
    case 2 => ErrorLevel
    case 3 => FatalLevel
    case 5 => FatalLevel
    case 4 => PanicLevel
    case 6 => Disabled
    case _ => InfoLevel
  }

  /** Through zap and back every level except Trace and NoLevel comes back
      as itself; those two come back as Debug. */
  lemma LevelTablesRoundTrip(l: Level)
    requires IsNamed(l)
    ensures l != TraceLevel && l != NoLevel ==> ZapLevelToPort(PortLevelToZap(l)) == l
    ensures l == TraceLevel || l == NoLevel ==> ZapLevelToPort(PortLevelToZap(l)) == DebugLevel
  {
  }

  /** zap orders Panic below Fatal, where logport puts it above. */
  lemma PanicBelowFatal()
    ensures PanicLevel > FatalLevel && PortLevelToZap(PanicLevel) < PortLevelToZap(FatalLevel)
  {
  }

  /** slogLevelToZap: the bands of logport.LevelFromSlog, in zap's terms. */
  function SlogLevelToZap(level: Int64): (r: ZapLevel)
    ensures r in {ZDebug, ZInfo, ZWarn, ZError, ZFatal}
  {
    if level < SlogDebug then ZDebug
    else if level < SlogInfo then ZDebug
    else if level < SlogWarn then ZInfo
    else if level < SlogError then ZWarn
    else if level < SlogError + 4 then ZError
    else ZFatal
  }

  /** slogLevelToZap is LevelFromSlog followed by portLevelToZap. */
  lemma SlogLevelToZapIsLevelFromSlog(level: Int64)
    ensures SlogLevelToZap(level) == PortLevelToZap(LevelFromSlog(level))
  {
  }

  lemma SlogLevelToZapMonotone(x: Int64, y: Int64)
    requires x <= y
    ensures SlogLevelToZap(x) <= SlogLevelToZap(y)
  {
  }

  // ---- The adapter ----

  /** The adapter. hasLogger is false for a nil *zap.Logger; context is what
      With and WithAttrs have attached to the zap logger; minLevel and
      configuredLevel are the two optional levels LogLevel sets. */
  datatype Adapter = Adapter(
    hasLogger: bool,
    context: seq<Field>,
    groups: seq<Bytes>,
    minLevel: Option<ZapLevel>,
    configuredLevel: Option<Level>,
    includeLogLevel: bool)

  /** NewFromLogger: None stands for the no-op logger a nil *zap.Logger
      gives. */
  function NewFromLogger(hasLogger: bool): (r: Option<Adapter>)
    ensures r.None? <==> !hasLogger
    ensures r.Some? ==> r.value == Adapter(true, [], [], None, None, false)
  {
    if hasLogger then Some(Adapter(true, [], [], None, None, false)) else None
  }

  /** shouldLog: no logger, nothing; no minimum, everything; otherwise the
      level's zap counterpart against the minimum. */
  function ShouldLog(a: Adapter, level: Level): (r: bool)
    ensures !a.hasLogger ==> !r
    ensures a.hasLogger && a.minLevel.None? ==> r
    ensures a.hasLogger && a.minLevel.Some? ==> (r <==> PortLevelToZap(level) >= a.minLevel.value)
  {
    if !a.hasLogger then false
    else if a.minLevel.None? then true
    else PortLevelToZap(level) >= a.minLevel.value
  }

  /** LogLevel: with a logger, NoLevel lowers the minimum to Debug and any
      other level sets it to its zap counterpart; the level itself is kept
      as the configured level. Without a logger nothing changes. */
  function LogLevel(a: Adapter, level: Level): (r: Adapter)
    ensures !a.hasLogger ==> r == a
    ensures a.hasLogger ==> r == a.(minLevel := Some(PortLevelToZap(level)), configuredLevel := Some(level))
  {
    if !a.hasLogger then a
    else if level == NoLevel then a.(minLevel := Some(ZDebug), configuredLevel := Some(level))
    else a.(minLevel := Some(PortLevelToZap(level)), configuredLevel := Some(level))
  }

  /** currentLevel: the configured level, else the minimum read back, else
      Info. */
  function CurrentLevel(a: Adapter): (r: Level)
    ensures a.configuredLevel.Some? ==> r == a.configuredLevel.value
    ensures a.configuredLevel.None? && a.minLevel.Some? ==> r == ZapLevelToPort(a.minLevel.value)
    ensures a.configuredLevel.None? && a.minLevel.None? ==> r == InfoLevel
  {
    if a.configuredLevel.Some? then a.configuredLevel.value
    else if a.minLevel.Some? then ZapLevelToPort(a.minLevel.value)
    else InfoLevel
  }

  /** With a logger, the level LogLevel was given is the current level. */
  lemma CurrentLevelOfLogLevel(a: Adapter, level: Level)
    requires a.hasLogger
    ensures CurrentLevel(LogLevel(a, level)) == level
  {
  }

  /** After LogLevel(m) an adapter method passes its level iff the zap
      counterpart is at least m's; after LogLevel(Disabled) no level but
      Disabled itself passes, and after LogLevel(NoLevel) all do. */
  lemma ShouldLogAfterLogLevel(a: Adapter, m: Level, level: Level)
    requires a.hasLogger
    ensures ShouldLog(LogLevel(a, m), level) <==> PortLevelToZap(level) >= PortLevelToZap(m)
    ensures m == Disabled ==> (ShouldLog(LogLevel(a, m), level) <==> level == Disabled)
    ensures m == NoLevel ==> ShouldLog(LogLevel(a, m), level)
  {
  }

  function LogLevelFromEnv(a: Adapter, key: Bytes, lookup: Option<Bytes>): (r: Adapter)
    ensures !LevelFromEnv(key, lookup).1 ==> r == a
    ensures LevelFromEnv(key, lookup).1 ==> r == LogLevel(a, ParseLevel(lookup.value).0)
  {
    var (level, ok) := LevelFromEnv(key, lookup);
    if ok then LogLevel(a, level) else a
  }

  /** WithLogLevel: turns the loglevel field on. */
  function WithLogLevel(a: Adapter): (r: Adapter)
    ensures r == a.(includeLogLevel := true)
  {
    if a.includeLogLevel then a else a.(includeLogLevel := true)
  }

  lemma WithLogLevelIdempotent(a: Adapter)
    ensures WithLogLevel(WithLogLevel(a)) == WithLogLevel(a)
  {
  }

  /** appendLogLevelField: the loglevel field goes last, when it is on. */
  function AppendLogLevelField(a: Adapter, fields: seq<Field>): (r: seq<Field>)
    ensures !a.includeLogLevel ==> r == fields
    ensures a.includeLogLevel ==> r == fields + [Field("loglevel", Str(LevelString(CurrentLevel(a))))]
  {
    if a.includeLogLevel then fields + [Field("loglevel", Str(LevelString(CurrentLevel(a))))] else fields
  }

  // ---- Fields ----

  /** keyvalsToFields: one field per pair, attribute leaf or trailing value,
      in order, keys under the groups. */
  method KeyvalsToFields(groups: seq<Bytes>, keyvals: seq<Value>) returns (fields: seq<Field>)
    ensures fields == Fields(keyvals, groups, 0, false)
  {
    if |keyvals| == 0 {
      return [];
    }
    fields := Walk.CollectKeyvals([], keyvals, groups);
  }

  /** attrsToFields and recordToFields: the attributes' fields. */
  method AttrsToFields(attrs: seq<Attr>, groups: seq<Bytes>) returns (fields: seq<Field>)
    ensures fields == AttrsFields(attrs, groups)
  {
    if |attrs| == 0 {
      return [];
    }
    fields := Walk.CollectAttrs([], attrs, groups);
  }

  /** The adapter with more fields on its zap logger. */
  function Attach(a: Adapter, fields: seq<Field>): (r: Adapter)
    ensures fields == [] ==> r == a
    ensures r == a.(context := a.context + fields)
  {
    if fields == [] then a else a.(context := a.context + fields)
  }

  /** With: nothing without a logger; otherwise the items' fields, under
      the adapter's groups, are attached to the zap logger. */
  method With(a: Adapter, keyvals: seq<Value>) returns (r: Adapter)
    ensures !a.hasLogger ==> r == a
    ensures a.hasLogger ==> r == Attach(a, Fields(keyvals, a.groups, 0, false))
  {
    if !a.hasLogger || |keyvals| == 0 {
      return a;
    }
    var fields := KeyvalsToFields(a.groups, keyvals);
    r := Attach(a, fields);
  }

  /** WithAttrs: the attributes' fields attached, as With does. */
  method WithAttrs(a: Adapter, attrs: seq<Attr>) returns (r: Adapter)
    ensures !a.hasLogger ==> r == a
    ensures a.hasLogger ==> r == Attach(a, AttrsFields(attrs, a.groups))
  {
    if !a.hasLogger || |attrs| == 0 {
      return a;
    }
    var fields := AttrsToFields(attrs, a.groups);
    r := Attach(a, fields);
  }

  /** WithGroup: an empty name changes nothing; otherwise it is appended. */
  function WithGroup(a: Adapter, name: Bytes): (r: Adapter)
    ensures name == [] ==> r == a
    ensures name != [] ==> r == a.(groups := a.groups + [name])
  {
    if name == [] then a else a.(groups := AppendGroup(a.groups, name))
  }

  // ---- Logging ----

  /** What the adapter hands to zap: the zap level of the method it calls,
      the message and the call's fields. */
  datatype Entry = Entry(level: ZapLevel, msg: Bytes, fields: seq<Field>)

  /** The result of a call: the entry, if any, and whether the adapter
      itself panicked (Panic without a logger). */
  datatype Outcome = Outcome(entry: Option<Entry>, panics: bool)

  /** The entry of a method call at level m once it goes through. */
  function EntryOf(a: Adapter, m: Level, msg: Bytes, keyvals: seq<Value>): Entry {
    Entry(PortLevelToZap(m), msg, AppendLogLevelField(a, Fields(keyvals, a.groups, 0, false)))
  }

  /** Trace, Debug, Info, Warn, Error, Fatal and Panic (m says which).
      Trace goes to zap's Debug. Fatal and Panic skip shouldLog; Panic
      without a logger panics with the message. */
  function Called(a: Adapter, m: Level, msg: Bytes, keyvals: seq<Value>): (r: Outcome)
    requires TraceLevel <= m <= PanicLevel
    ensures r.panics <==> m == PanicLevel && !a.hasLogger
    ensures r.entry.Some? <==> a.hasLogger && (m == FatalLevel || m == PanicLevel || ShouldLog(a, m))
    ensures r.entry.Some? ==> r.entry.value.level == PortLevelToZap(m) && r.entry.value.msg == msg
    ensures m == TraceLevel && r.entry.Some? ==> r.entry.value.level == ZDebug
  {
    if !a.hasLogger then Outcome(None, m == PanicLevel)
    else if m != FatalLevel && m != PanicLevel && !ShouldLog(a, m) then Outcome(None, false)
    else Outcome(Some(EntryOf(a, m, msg, keyvals)), false)
  }

  /** The method Logp calls for a level: Trace, Debug and NoLevel go to
      Debug, Disabled to none, an unnamed level to Info. */
  function LogpMethod(level: Level): (r: Option<Level>)
    ensures r.None? <==> level == Disabled
    ensures r.Some? ==> DebugLevel <= r.value <= PanicLevel
    ensures level in {TraceLevel, DebugLevel, NoLevel} ==> r == Some(DebugLevel)
    ensures InfoLevel <= level <= PanicLevel ==> r == Some(level)
    ensures !IsNamed(level) ==> r == Some(InfoLevel)
  {
    if level == TraceLevel || level == DebugLevel || level == NoLevel then Some(DebugLevel)
    else if level == Disabled then None
    else if InfoLevel <= level <= PanicLevel then Some(level)
    else Some(InfoLevel)
  }

  function Logged(a: Adapter, level: Level, msg: Bytes, keyvals: seq<Value>): Outcome {
    match LogpMethod(level)
    case None => Outcome(None, false)
    case Some(m) => Called(a, m, msg, keyvals)
  }

  /** Builds the outcome of method m from the call's fields. */
  method Call(a: Adapter, m: Level, msg: Bytes, keyvals: seq<Value>) returns (o: Outcome)
    requires TraceLevel <= m <= PanicLevel
    ensures o == Called(a, m, msg, keyvals)
  {
    if !a.hasLogger {
      return Outcome(None, m == PanicLevel);
    }
    if m != FatalLevel && m != PanicLevel && !ShouldLog(a, m) {
      return Outcome(None, false);
    }
    var fields := KeyvalsToFields(a.groups, keyvals);
    fields := AppendLogLevelField(a, fields);
    o := Outcome(Some(Entry(PortLevelToZap(m), msg, fields)), false);
  }

  /** Logp. */
  method Logp(a: Adapter, level: Level, msg: Bytes, keyvals: seq<Value>) returns (o: Outcome)
    ensures o == Logged(a, level, msg, keyvals)
  {
    var m := LogpMethod(level);
    if m.None? {
      return Outcome(None, false);
    }
    o := Call(a, m.value, msg, keyvals);
  }

  /** Logp(Disabled) does nothing; Trace and NoLevel are logged exactly as
      Debug is, an unnamed level as Info. */
  lemma LogpRouting(a: Adapter, msg: Bytes, keyvals: seq<Value>, level: Level)
    ensures Logged(a, Disabled, msg, keyvals) == Outcome(None, false)
    ensures Logged(a, TraceLevel, msg, keyvals) == Logged(a, DebugLevel, msg, keyvals)
    ensures Logged(a, NoLevel, msg, keyvals) == Logged(a, DebugLevel, msg, keyvals)
    ensures !IsNamed(level) ==> Logged(a, level, msg, keyvals) == Logged(a, InfoLevel, msg, keyvals)
  {
  }

  /** LogLevel(Disabled) stops every method that checks shouldLog, but
      Fatal and Panic are still handed to zap. */
  lemma DisabledStillPassesFatal(a: Adapter, msg: Bytes, keyvals: seq<Value>, level: Level)
    requires a.hasLogger && level != FatalLevel && level != PanicLevel
    ensures Logged(LogLevel(a, Disabled), level, msg, keyvals).entry.None?
    ensures Logged(LogLevel(a, Disabled), FatalLevel, msg, keyvals).entry.Some?
    ensures Logged(LogLevel(a, Disabled), PanicLevel, msg, keyvals).entry.Some?
  {
  }

  /** Logs: a level name that parses is used, anything else is NoLevel. */
  method Logs(a: Adapter, level: Bytes, msg: Bytes, keyvals: seq<Value>) returns (o: Outcome)
    ensures ParseLevel(level).1 ==> o == Logged(a, ParseLevel(level).0, msg, keyvals)
    ensures !ParseLevel(level).1 ==> o == Logged(a, DebugLevel, msg, keyvals)
  {
    var (lvl, ok) := ParseLevel(level);
    if ok {
      o := Logp(a, lvl, msg, keyvals);
    } else {
      o := Logp(a, NoLevel, msg, keyvals);
    }
  }

  // ---- slog ----

  /** Enabled: no logger, false; a record below the minimum, false;
      otherwise whatever zap's core says (core stands for it). */
  function Enabled(a: Adapter, level: Int64, core: ZapLevel -> bool): (r: bool)
    ensures r <==> a.hasLogger && (a.minLevel.None? || SlogLevelToZap(level) >= a.minLevel.value) && core(SlogLevelToZap(level))
  {
    if !a.hasLogger then false
    else if a.minLevel.Some? && SlogLevelToZap(level) < a.minLevel.value then false
    else core(SlogLevelToZap(level))
  }

  /** The entry Handle writes: nothing without a logger, below the minimum
      or when zap's core turns the level down; otherwise the record's
      attributes under the groups, then the loglevel field. */
  function Handled(a: Adapter, level: Int64, msg: Bytes, attrs: seq<Attr>, core: ZapLevel -> bool): (r: Option<Entry>)
    ensures r.Some? <==> Enabled(a, level, core)
    ensures r.Some? ==> r.value == Entry(SlogLevelToZap(level), msg, AppendLogLevelField(a, AttrsFields(attrs, a.groups)))
  {
    if !Enabled(a, level, core) then None
    else Some(Entry(SlogLevelToZap(level), msg, AppendLogLevelField(a, AttrsFields(attrs, a.groups))))
  }

  method Handle(a: Adapter, level: Int64, msg: Bytes, attrs: seq<Attr>, core: ZapLevel -> bool) returns (e: Option<Entry>)
    ensures e == Handled(a, level, msg, attrs, core)
  {
    if !a.hasLogger {
      return None;
    }
    var zapLevel := SlogLevelToZap(level);
    if a.minLevel.Some? && zapLevel < a.minLevel.value {
      return None;
    }
    if core(zapLevel) {
      var fields := AttrsToFields(attrs, a.groups);
      fields := AppendLogLevelField(a, fields);
      return Some(Entry(zapLevel, msg, fields));
    }
    return None;
  }
}
