/** The charmbracelet/log adapter (adapters/charmlogger/charm.go): the level
    tables into charm, the normal form of the items it passes on, the
    builders, and the record each call hands to charm. Of charm itself the
    model keeps the logger's level, the items With attached to it, and
    which calls it writes: a levelled call when its level is at least the
    logger's, Print always. Formatting and writing are left out. */
module CharmLogger {
  import opened GoBytes
  import opened Levels
  import opened Keyvals
  import Walk

  // ---- charm levels ----

  /** log.Level, an int32 on slog's scale. */
  type CharmLevel = i: int | -0x8000_0000 <= i < 0x8000_0000

  const CDebug: CharmLevel := -4
  const CInfo: CharmLevel := 0
  const CWarn: CharmLevel := 4
  const CError: CharmLevel := 8
  const CFatal: CharmLevel := 12

  /** portLevelToCharm: Trace, Debug and NoLevel become Debug, Fatal and
      Panic Fatal, Disabled the level above Fatal, an unnamed level Info. */
  function PortLevelToCharm(level: Level): (r: CharmLevel)
    ensures CDebug <= r <= CFatal + 1
    ensures r == CDebug <==> level in {TraceLevel, DebugLevel, NoLevel}
    ensures r == CFatal <==> level == FatalLevel || level == PanicLevel
    ensures r == CFatal + 1 <==> level == Disabled
    ensures !IsNamed(level) ==> r == CInfo
  {
    match level
    case -1 => CDebug
    case 0 => CDebug
    case 6 => CDebug
    case 1 => CInfo
    case 2 => CWarn
    case 3 => CError
    case 4 => CFatal
    case 5 => CFatal
    case 7 => CFatal + 1
    case _ => CInfo
  }

  /** From Trace to Panic the table keeps logport's order, and Disabled
      lies above every level it gives. */
  lemma PortLevelToCharmMonotone(x: Level, y: Level)
    requires TraceLevel <= x <= y <= PanicLevel
    ensures PortLevelToCharm(x) <= PortLevelToCharm(y) < PortLevelToCharm(Disabled)
  {
  }

  /** slogLevelToCharm: bands closed above at slog's Debug, Info, Warn and
      Error; everything below Debug is Debug, everything above Error
      Fatal. */
  function SlogLevelToCharm(level: Int64): (r: CharmLevel)
    ensures r in {CDebug, CInfo, CWarn, CError, CFatal}
    ensures r == CDebug <==> level <= SlogDebug
    ensures r == CFatal <==> level > SlogError
    ensures SlogDebug < level <= SlogError ==> r - 4 < level <= r
  {
    if level < SlogDebug then CDebug
    else if level <= SlogDebug then CDebug
    else if level <= SlogInfo then CInfo
    else if level <= SlogWarn then CWarn
    else if level <= SlogError then CError
    else CFatal
  }

  lemma SlogLevelToCharmMonotone(x: Int64, y: Int64)
    requires x <= y
    ensures SlogLevelToCharm(x) <= SlogLevelToCharm(y)
  {
  }

  /** On slog's four named levels the table agrees with reading the level
      through LevelFromSlog; between them it rounds up where LevelFromSlog
      rounds down. */
  lemma SlogLevelToCharmAtNamedLevels(level: Int64)
    ensures level in {SlogDebug, SlogInfo, SlogWarn, SlogError} ==> SlogLevelToCharm(level) == PortLevelToCharm(LevelFromSlog(level))
    ensures SlogLevelToCharm(SlogDebug + 1) == CInfo && LevelFromSlog(SlogDebug + 1) == DebugLevel
  {
  }

  // ---- Normal form ----

  /** normalizeCharmKeyvals: the items as a flat key/value list. */
  method NormalizeCharmKeyvals(keyvals: seq<Value>, groups: seq<Bytes>) returns (normalized: seq<Value>)
    ensures normalized == Flatten(Fields(keyvals, groups, 0, false))
  {
    if |keyvals| == 0 {
      return [];
    }
    normalized := Walk.NormalizeKeyvals(keyvals, groups);
  }

  /** The normal form is a list of pairs: an even number of items, every
      even one a string key, keyed under the groups' dotted path when there
      are groups. */
  lemma NormalizedArePairs(keyvals: seq<Value>, groups: seq<Bytes>, k: nat)
    requires k < |Flatten(Fields(keyvals, groups, 0, false))| / 2
    ensures |Flatten(Fields(keyvals, groups, 0, false))| % 2 == 0
    ensures Flatten(Fields(keyvals, groups, 0, false))[2 * k].Str?
    ensures groups != [] ==> IsPrefix(Join(groups, "."), Flatten(Fields(keyvals, groups, 0, false))[2 * k].s)
  {
    var fs := Fields(keyvals, groups, 0, false);
    FlattenAt(fs, k);
    if groups != [] {
      FieldsKeyedByGroup(keyvals, groups, 0, false);
      assert fs[k] in fs;
    }
  }

  /** Normalising the normal form again, outside any group, changes
      nothing. */
  lemma NormalizeIdempotent(keyvals: seq<Value>)
    ensures Flatten(Fields(Flatten(Fields(keyvals, [], 0, false)), [], 0, false)) == Flatten(Fields(keyvals, [], 0, false))
  {
    FieldsOfFlatten(Fields(keyvals, [], 0, false), 0, false);
  }

  // ---- The adapter ----

  /** The adapter. hasLogger is false for a nil *log.Logger; loggerLevel
      and context are the charm logger's level and the items With has
      attached to it. */
  datatype Adapter = Adapter(
    hasLogger: bool,
    loggerLevel: CharmLevel,
    context: seq<Value>,
    groups: seq<Bytes>,
    forcedLevel: Option<Level>)

  /** New and NewWithOptions: a charm logger at the options' level, whose
      zero value is Info. */
  function NewWithOptions(level: CharmLevel): (r: Adapter)
    ensures r == Adapter(true, level, [], [], None)
  {
    Adapter(true, level, [], [], None)
  }

  function New(): (r: Adapter)
    ensures r.hasLogger && r.loggerLevel == CInfo && r.forcedLevel.None?
  {
    NewWithOptions(CInfo)
  }

  /** forceNoLevel: a logger and a forced NoLevel. */
  predicate ForceNoLevel(c: Adapter)
    ensures ForceNoLevel(c) ==> c.hasLogger
  {
    c.hasLogger && c.forcedLevel == Some(NoLevel)
  }

  /** LogLevel: nothing without a logger; NoLevel is forced and leaves the
      logger alone; any other level goes to a copy of the logger and drops
      the forced level. */
  function LogLevel(c: Adapter, level: Level): (r: Adapter)
    ensures !c.hasLogger ==> r == c
    ensures c.hasLogger && level == NoLevel ==> r == c.(forcedLevel := Some(NoLevel))
    ensures c.hasLogger && level != NoLevel ==> r == c.(loggerLevel := PortLevelToCharm(level), forcedLevel := None)
  {
    if !c.hasLogger then c
    else if level == NoLevel then c.(forcedLevel := Some(level))
    else c.(loggerLevel := PortLevelToCharm(level), forcedLevel := None)
  }

  /** LogLevel forces the level-less mode for NoLevel and ends it for any
      other level; without a logger it changes nothing. */
  lemma ForceNoLevelOfLogLevel(c: Adapter, level: Level)
    ensures ForceNoLevel(LogLevel(c, level)) <==> c.hasLogger && level == NoLevel
  {
  }

  /** With: nothing for no items or without a logger; otherwise the items,
      normalised outside any group, are attached to the charm logger. */
  method With(c: Adapter, keyvals: seq<Value>) returns (r: Adapter)
    ensures keyvals == [] || !c.hasLogger ==> r == c
    ensures r == c.(context := c.context + (if c.hasLogger then Flatten(Fields(keyvals, [], 0, false)) else []))
  {
    if !c.hasLogger || |keyvals| == 0 {
      return c;
    }
    var normalized := NormalizeCharmKeyvals(keyvals, []);
    if |normalized| == 0 {
      return c;
    }
    r := c.(context := c.context + normalized);
  }

  /** WithAttrs: nothing for no attributes or without a logger; otherwise
      their pairs, under the groups, are attached to the charm logger. */
  method WithAttrs(c: Adapter, attrs: seq<Attr>) returns (r: Adapter)
    ensures attrs == [] || !c.hasLogger ==> r == c
    ensures c.hasLogger ==> r == c.(context := c.context + Flatten(AttrsFields(attrs, c.groups)))
  {
    if |attrs| == 0 || !c.hasLogger {
      return c;
    }
    var keyvals := Walk.AttrsToKeyvals(attrs, c.groups);
    r := c.(context := c.context + keyvals);
  }

  /** WithGroup: an empty name changes nothing; otherwise it is appended. */
  function WithGroup(c: Adapter, name: Bytes): (r: Adapter)
    ensures name == [] ==> r == c
    ensures name != [] ==> r == c.(groups := c.groups + [name])
  {
    if name == [] then c else c.(groups := AppendGroup(c.groups, name))
  }

  /** No builder touches the level or the forced level. */
  lemma BuildersKeepLevel(c: Adapter, name: Bytes)
    ensures WithGroup(c, name).loggerLevel == c.loggerLevel && WithGroup(c, name).forcedLevel == c.forcedLevel
  {
  }

  // ---- Records ----

  /** A call charm writes: its level (None for Print), the message, the
      logger's attached items and the call's own. */
  datatype Record = Record(level: Option<CharmLevel>, msg: Bytes, context: seq<Value>, keyvals: seq<Value>)

  /** The result of a call: the record, if any; whether the call reached a
      method of a nil logger; whether it went to charm's Fatal (which
      exits); and whether the adapter itself panicked. */
  datatype Outcome = Outcome(record: Option<Record>, nilLogger: bool, fatal: bool, panics: bool)

  /** charm writes a Print, and a levelled call at the logger's level or
      above. */
  function Written(c: Adapter, level: Option<CharmLevel>, msg: Bytes, keyvals: seq<Value>): (r: Option<Record>)
    ensures r.Some? <==> level.None? || level.value >= c.loggerLevel
    ensures r.Some? ==> r.value == Record(level, msg, c.context, keyvals)
  {
    if level.None? || level.value >= c.loggerLevel then Some(Record(level, msg, c.context, keyvals)) else None
  }

  /** The charm method a level method calls: Print under a forced NoLevel
      (not for Fatal and Panic), Trace as Debug, Panic as Error. */
  function CharmMethod(c: Adapter, m: Level): (r: Option<CharmLevel>)
    requires TraceLevel <= m <= PanicLevel
    ensures r.None? <==> ForceNoLevel(c) && m < FatalLevel
    ensures r.Some? && m < FatalLevel ==> r.value == PortLevelToCharm(m)
    ensures m == FatalLevel ==> r == Some(CFatal)
    ensures m == PanicLevel ==> r == Some(CError)
  {
    if m == PanicLevel then Some(CError)
    else if m == FatalLevel then Some(CFatal)
    else if ForceNoLevel(c) then None
    else Some(PortLevelToCharm(m))
  }

  /** Trace, Debug, Info, Warn, Error, Fatal and Panic (m says which).
      Trace returns and Panic only panics without a logger; the others go
      on to call the nil logger. */
  function Called(c: Adapter, m: Level, msg: Bytes, flat: seq<Value>): (r: Outcome)
    requires TraceLevel <= m <= PanicLevel
    ensures r.panics <==> m == PanicLevel
    ensures r.nilLogger <==> !c.hasLogger && DebugLevel <= m <= FatalLevel
    ensures r.fatal <==> c.hasLogger && m == FatalLevel
    ensures r.record.Some? ==> c.hasLogger
    ensures c.hasLogger ==> r.record == Written(c, CharmMethod(c, m), msg, flat)
  {
    if !c.hasLogger then Outcome(None, DebugLevel <= m <= FatalLevel, false, m == PanicLevel)
    else Outcome(Written(c, CharmMethod(c, m), msg, flat), false, m == FatalLevel, m == PanicLevel)
  }

  /** The level methods hand the items to charm in normal form, under the
      adapter's groups. */
  method Call(c: Adapter, m: Level, msg: Bytes, keyvals: seq<Value>) returns (o: Outcome)
    requires TraceLevel <= m <= PanicLevel
    ensures o == Called(c, m, msg, Flatten(Fields(keyvals, c.groups, 0, false)))
  {
    var flat := NormalizeCharmKeyvals(keyvals, c.groups);
    if !c.hasLogger {
      return Outcome(None, DebugLevel <= m <= FatalLevel, false, m == PanicLevel);
    }
    o := Outcome(Written(c, CharmMethod(c, m), msg, flat), false, m == FatalLevel, m == PanicLevel);
  }

  /** After LogLevel(l), l from Trace to Error, a method from Trace to Error
      is written iff charm's level for it is at least l's (so Trace is
      written whenever Debug is); LogLevel(Disabled) silences every method
      but Panic still panics. */
  lemma LogLevelThreshold(c: Adapter, l: Level, m: Level, msg: Bytes, flat: seq<Value>)
    requires c.hasLogger && TraceLevel <= l <= PanicLevel && TraceLevel <= m <= PanicLevel
    ensures m < FatalLevel ==> (Called(LogLevel(c, l), m, msg, flat).record.Some? <==> PortLevelToCharm(m) >= PortLevelToCharm(l))
    ensures Called(LogLevel(c, Disabled), m, msg, flat).record.None?
    ensures Called(LogLevel(c, Disabled), PanicLevel, msg, flat).panics
  {
  }

  /** Panic is written as an Error record, so under LogLevel(Fatal) it is
      dropped although Fatal itself is written. */
  lemma PanicLogsAsError(c: Adapter, msg: Bytes, flat: seq<Value>)
    requires c.hasLogger
    ensures Called(LogLevel(c, FatalLevel), PanicLevel, msg, flat).record.None?
    ensures Called(LogLevel(c, FatalLevel), FatalLevel, msg, flat).record.Some?
  {
  }

  /** Under a forced NoLevel the methods below Fatal Print, whatever the
      logger's level. */
  lemma ForcedNoLevelPrints(c: Adapter, m: Level, msg: Bytes, flat: seq<Value>)
    requires ForceNoLevel(c) && TraceLevel <= m < FatalLevel
    ensures Called(c, m, msg, flat).record == Some(Record(None, msg, c.context, flat))
  {
  }

  // ---- slog ----

  /** Enabled: no logger, false; a forced NoLevel, true; otherwise the
      record's charm level against the logger's. */
  function Enabled(c: Adapter, level: Int64): (r: bool)
    ensures !c.hasLogger ==> !r
    ensures ForceNoLevel(c) ==> r
    ensures c.hasLogger && !ForceNoLevel(c) ==> (r <==> SlogLevelToCharm(level) >= c.loggerLevel)
  {
    if !c.hasLogger then false
    else if ForceNoLevel(c) then true
    else SlogLevelToCharm(level) >= c.loggerLevel
  }

  /** slog.Level.String above Error: ERROR+n. */
  function SlogLevelAboveError(level: Int64): (r: Bytes)
    requires level > SlogError
    ensures IsPrefix("ERROR+", r) && r[6..] == NatDigits(level - SlogError)
  {
    "ERROR+" + NatDigits(level - SlogError)
  }

  /** The charm method Handle calls: Print under a forced NoLevel, else by
      slog's bands closed above, anything above Error as Error. */
  function HandleLevel(c: Adapter, level: Int64): (r: Option<CharmLevel>)
    ensures r.None? <==> ForceNoLevel(c)
    ensures r.Some? && level <= SlogError ==> r.value == SlogLevelToCharm(level)
    ensures r.Some? && level > SlogError ==> r.value == CError
  {
    if ForceNoLevel(c) then None
    else if level <= SlogDebug then Some(CDebug)
    else if level <= SlogInfo then Some(CInfo)
    else if level <= SlogWarn then Some(CWarn)
    else if level <= SlogError then Some(CError)
    else Some(CError)
  }

  /** The record Handle writes: the record's attributes as pairs under the
      groups, with slog_level and slog's name for the level added when the
      level is above Error and charm's Error is called. */
  function Handled(c: Adapter, level: Int64, msg: Bytes, attrs: seq<Attr>): (r: Option<Record>)
    ensures r.Some? ==> c.hasLogger && r.value.msg == msg && r.value.level == HandleLevel(c, level)
    ensures r.Some? && (ForceNoLevel(c) || level <= SlogError) ==> r.value.keyvals == Flatten(AttrsFields(attrs, c.groups))
    ensures r.Some? && !ForceNoLevel(c) && level > SlogError ==>
      r.value.keyvals == Flatten(AttrsFields(attrs, c.groups)) + [Str("slog_level"), Str(SlogLevelAboveError(level))]
  {
    if !c.hasLogger then None
    else
      var keyvals := Flatten(AttrsFields(attrs, c.groups));
      if !ForceNoLevel(c) && level > SlogError then
        Written(c, Some(CError), msg, keyvals + [Str("slog_level"), Str(SlogLevelAboveError(level))])
      else Written(c, HandleLevel(c, level), msg, keyvals)
  }

  /** Up to slog's Error, Handle writes exactly when Enabled says it
      would. */
  lemma HandleAgreesWithEnabled(c: Adapter, level: Int64, msg: Bytes, attrs: seq<Attr>)
    requires level <= SlogError
    ensures Handled(c, level, msg, attrs).Some? <==> Enabled(c, level)
  {
  }

  /** Above Error, Enabled asks about charm's Fatal but Handle writes at
      Error: under LogLevel(Fatal) such a record is enabled and dropped. */
  lemma EnabledAboveErrorButDropped(c: Adapter, msg: Bytes, attrs: seq<Attr>)
    requires c.hasLogger
    ensures Enabled(LogLevel(c, FatalLevel), SlogError + 4)
    ensures Handled(LogLevel(c, FatalLevel), SlogError + 4, msg, attrs).None?
  {
  }

  method Handle(c: Adapter, level: Int64, msg: Bytes, attrs: seq<Attr>) returns (r: Option<Record>)
    ensures r == Handled(c, level, msg, attrs)
  {
    if !c.hasLogger {
      return None;
    }
    var keyvals := Walk.AttrsToKeyvals(attrs, c.groups);
    if ForceNoLevel(c) {
      return Written(c, None, msg, keyvals);
    }
    if level > SlogError {
      return Written(c, Some(CError), msg, keyvals + [Str("slog_level"), Str(SlogLevelAboveError(level))]);
    }
    r := Written(c, HandleLevel(c, level), msg, keyvals);
  }
}
