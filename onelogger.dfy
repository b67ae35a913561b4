/** The onelog adapter (adapters/onelogger/onelogger.go): level filtering,
    level bookkeeping, the builders, and the entry each logging call hands
    to onelog. The onelog logger itself is outside the model; an entry is
    the chain method the adapter picks, the message and the fields it adds,
    in order. */
module OneLogger {
  import opened GoBytes
  import opened Levels
  import opened Keyvals
  import Walk

  /** The adapter. hasLogger is false for the zero adapter (a nil onelog
      logger); hasExitFn says whether that logger has an ExitFn. */
  datatype Adapter = Adapter(
    hasLogger: bool,
    hasExitFn: bool,
    baseKeyvals: seq<Value>,
    groups: seq<Bytes>,
    forcedLevel: Option<Level>,
    minLevel: Level,
    includeLogLevel: bool)

  /** The options the adapter reads itself; Levels, ContextName, ExitFunc
      and Configure only reach onelog. hasHook says whether Hook is set. */
  datatype Options = Options(minLevel: Option<Level>, timeFormat: Bytes, disableTimestamp: bool, hasHook: bool)

  /** port.DTGTimeFormat, taken at its initial value. */
  const DTGTimeFormat: Bytes := "021504"

  /** NewWithOptions: a logger is always made; MinLevel defaults to Trace. */
  function NewWithOptions(opts: Options, exitFn: bool): (r: Adapter)
    ensures r.hasLogger && r.hasExitFn == exitFn
    ensures r.baseKeyvals == [] && r.groups == [] && r.forcedLevel.None? && !r.includeLogLevel
    ensures r.minLevel == if opts.minLevel.Some? then opts.minLevel.value else TraceLevel
  {
    Adapter(true, exitFn, [], [], None, if opts.minLevel.Some? then opts.minLevel.value else TraceLevel, false)
  }

  /** NewFromLogger: a nil logger gives the zero adapter, whose minimum is
      the zero Level (Debug); any other logger starts at Trace. */
  function NewFromLogger(hasLogger: bool, exitFn: bool): (r: Adapter)
    ensures r.hasLogger == hasLogger && r.baseKeyvals == [] && r.groups == [] && r.forcedLevel.None?
    ensures r.minLevel == if hasLogger then TraceLevel else DebugLevel
  {
    if !hasLogger then Adapter(false, false, [], [], None, 0, false)
    else Adapter(true, exitFn, [], [], None, TraceLevel, false)
  }

  // ---- Hooks ----

  /** The hooks composeHook runs for every entry: the timestamp hook (which
      adds "ts" formatted with the layout) and the caller's hook. */
  datatype Hook = TimestampHook(layout: Bytes) | UserHook

  /** composeHook: the timestamp hook when timestamps are on and a layout is
      given, then the caller's hook; no hook at all when neither is there. */
  function ComposeHook(opts: Options): (r: Option<seq<Hook>>)
    ensures r.None? <==> (opts.disableTimestamp || opts.timeFormat == []) && !opts.hasHook
    ensures r.Some? ==> 1 <= |r.value| <= 2
    ensures r.Some? ==> (TimestampHook(opts.timeFormat) in r.value <==> !opts.disableTimestamp && opts.timeFormat != [])
    ensures r.Some? ==> (UserHook in r.value <==> opts.hasHook)
    ensures r.Some? ==> forall h :: h in r.value ==> h == UserHook || h == TimestampHook(opts.timeFormat)
    ensures r.Some? && opts.hasHook ==> r.value[|r.value| - 1] == UserHook
    ensures r.Some? && !opts.disableTimestamp && opts.timeFormat != [] ==> r.value[0] == TimestampHook(opts.timeFormat)
  {
    var ts := if !opts.disableTimestamp && opts.timeFormat != [] then [TimestampHook(opts.timeFormat)] else [];
    var hooks := ts + if opts.hasHook then [UserHook] else [];
    if hooks == [] then None else Some(hooks)
  }

  /** New: DTG timestamps, no caller hook. */
  lemma NewHooks()
    ensures ComposeHook(Options(None, DTGTimeFormat, false, false)) == Some([TimestampHook(DTGTimeFormat)])
  {
    assert [TimestampHook(DTGTimeFormat)] + [] == [TimestampHook(DTGTimeFormat)];
  }

  // ---- Level filtering ----

  /** shouldLog: a nil logger and a forced Disabled let nothing through; a
      forced NoLevel is compared as Info and any other forced level replaces
      the entry's level; Disabled entries never pass. */
  function ShouldLog(a: Adapter, level: Level): (r: bool)
    ensures r ==> a.hasLogger && a.forcedLevel != Some(Disabled)
    ensures a.forcedLevel == None ==> (r <==> a.hasLogger && level != Disabled && level >= a.minLevel)
    ensures a.forcedLevel == Some(NoLevel) ==> (r <==> a.hasLogger && InfoLevel >= a.minLevel)
    ensures a.forcedLevel.Some? && a.forcedLevel.value != NoLevel ==>
      (r <==> a.hasLogger && a.forcedLevel.value != Disabled && a.forcedLevel.value >= a.minLevel)
  {
    if !a.hasLogger then false
    else
      var effective :=
        match a.forcedLevel
        case Some(f) => if f == NoLevel then InfoLevel else f
        case None => level;
      if a.forcedLevel == Some(Disabled) then false
      else effective != Disabled && effective >= a.minLevel
  }

  /** Under a minimum of Warn, Info is dropped and Warn passes. */
  lemma ShouldLogUnderWarn(a: Adapter)
    requires a.hasLogger && a.forcedLevel.None? && a.minLevel == WarnLevel
    ensures !ShouldLog(a, InfoLevel) && ShouldLog(a, WarnLevel)
  {
  }

  /** LogLevel: NoLevel and Disabled are forced and keep the minimum; any
      other level becomes the minimum and drops the forced level. */
  function LogLevel(a: Adapter, level: Level): (r: Adapter)
    ensures level == NoLevel || level == Disabled ==> r.forcedLevel == Some(level) && r.minLevel == a.minLevel
    ensures level != NoLevel && level != Disabled ==> r.forcedLevel.None? && r.minLevel == level
    ensures r == a.(forcedLevel := r.forcedLevel, minLevel := r.minLevel)
  {
    if level == NoLevel || level == Disabled then a.(forcedLevel := Some(level))
    else a.(forcedLevel := None, minLevel := level)
  }

  /** After LogLevel(m), m neither NoLevel nor Disabled, an entry passes iff
      its level is m or above and is not Disabled. */
  lemma LogLevelThreshold(a: Adapter, m: Level, level: Level)
    requires m != NoLevel && m != Disabled
    ensures ShouldLog(LogLevel(a, m), level) <==> a.hasLogger && level != Disabled && level >= m
  {
  }

  /** LogLevel(Disabled) silences every level, named or not. */
  lemma LogLevelDisabledSilences(a: Adapter, level: Level)
    ensures !ShouldLog(LogLevel(a, Disabled), level)
  {
  }

  /** After LogLevel(NoLevel) every entry is filtered as Info. */
  lemma LogLevelNoLevel(a: Adapter, level: Level)
    ensures ShouldLog(LogLevel(a, NoLevel), level) <==> a.hasLogger && InfoLevel >= a.minLevel
  {
  }

  /** currentLevel: the forced level, else the minimum, except that a
      minimum of 0 (the zero value, which is also Debug) reads as Info. */
  function CurrentLevel(a: Adapter): (r: Level)
    ensures a.forcedLevel.Some? ==> r == a.forcedLevel.value
    ensures a.forcedLevel.None? && a.minLevel != DebugLevel ==> r == a.minLevel
    ensures a.forcedLevel.None? && a.minLevel == DebugLevel ==> r == InfoLevel
  {
    if a.forcedLevel.Some? then a.forcedLevel.value
    else if a.minLevel != 0 then a.minLevel
    else InfoLevel
  }

  /** LogLevel and currentLevel agree for every level but Debug, which is
      reported as Info although Debug entries pass. */
  lemma CurrentLevelOfLogLevel(a: Adapter, level: Level)
    ensures level != DebugLevel ==> CurrentLevel(LogLevel(a, level)) == level
    ensures CurrentLevel(LogLevel(a, DebugLevel)) == InfoLevel
    ensures a.hasLogger ==> ShouldLog(LogLevel(a, DebugLevel), DebugLevel)
  {
  }

  /** LogLevelFromEnv: the variable's level when it parses, else no change. */
  function LogLevelFromEnv(a: Adapter, key: Bytes, lookup: Option<Bytes>): (r: Adapter)
    ensures !LevelFromEnv(key, lookup).1 ==> r == a
    ensures LevelFromEnv(key, lookup).1 ==> r == LogLevel(a, ParseLevel(lookup.value).0)
  {
    var (level, ok) := LevelFromEnv(key, lookup);
    if ok then LogLevel(a, level) else a
  }

  // ---- slog levels ----

  /** slogLevelToPort: each slog band is closed at its upper named level,
      so a level between two named slog levels maps to the upper one. */
  function SlogLevelToPort(level: Int64): (r: Level)
    ensures TraceLevel <= r <= FatalLevel
    ensures r == TraceLevel <==> level < SlogDebug
    ensures r == FatalLevel <==> level > SlogError
  {
    if level < SlogDebug then TraceLevel
    else if level <= SlogDebug then DebugLevel
    else if level <= SlogInfo then InfoLevel
    else if level <= SlogWarn then WarnLevel
    else if level <= SlogError then ErrorLevel
    else FatalLevel
  }

  lemma SlogLevelToPortMonotone(x: Int64, y: Int64)
    requires x <= y
    ensures SlogLevelToPort(x) <= SlogLevelToPort(y)
  {
  }

  /** Against logport.LevelFromSlog: the same level at every named slog
      level, otherwise rounded up to the next band, so never lower and never
      more than three slog steps higher. At -3 they differ: Info here,
      Debug there. */
  lemma SlogLevelToPortRoundsUp(level: Int64)
    ensures LevelFromSlog(level) <= SlogLevelToPort(level)
    ensures level < 0x7fff_ffff_ffff_fffc ==> SlogLevelToPort(level) <= LevelFromSlog(level + 3)
    ensures level in {SlogDebug, SlogInfo, SlogWarn, SlogError} ==> SlogLevelToPort(level) == LevelFromSlog(level)
    ensures SlogLevelToPort(-3) == InfoLevel && LevelFromSlog(-3) == DebugLevel
  {
  }

  /** Enabled: only a forced Disabled and the minimum count; the logger and
      a forced NoLevel are not looked at. */
  predicate Enabled(a: Adapter, level: Int64)
    ensures a.forcedLevel == Some(Disabled) ==> !Enabled(a, level)
    ensures a.forcedLevel != Some(Disabled) ==> (Enabled(a, level) <==> SlogLevelToPort(level) >= a.minLevel)
  {
    a.forcedLevel != Some(Disabled) && SlogLevelToPort(level) >= a.minLevel
  }

  /** With a logger and no forced level, Enabled and Handle's filter agree. */
  lemma EnabledMatchesHandle(a: Adapter, level: Int64)
    requires a.hasLogger && a.forcedLevel.None?
    ensures Enabled(a, level) <==> ShouldLog(a, SlogLevelToPort(level))
  {
  }

  /** Enabled reports true for the zero adapter, which logs nothing. */
  lemma EnabledWithoutLogger(level: Int64)
    requires level >= SlogDebug
    ensures Enabled(NewFromLogger(false, false), level)
    ensures !ShouldLog(NewFromLogger(false, false), SlogLevelToPort(level))
  {
  }

  // ---- Builders ----

  /** With: the pairs, normalized outside any group, after the base keyvals. */
  function With(a: Adapter, keyvals: seq<Value>): (r: Adapter)
    ensures r == a.(baseKeyvals := a.baseKeyvals + Flatten(Fields(keyvals, [], 0, false)))
  {
    if keyvals == [] then a
    else
      var addition := Flatten(Fields(keyvals, [], 0, false));
      if addition == [] then a else a.(baseKeyvals := a.baseKeyvals + addition)
  }

  /** WithLogLevel switches the loglevel field on and nothing else. */
  function WithLogLevel(a: Adapter): (r: Adapter)
    ensures r == a.(includeLogLevel := true)
  {
    if a.includeLogLevel then a else a.(includeLogLevel := true)
  }

  lemma WithLogLevelIdempotent(a: Adapter)
    ensures WithLogLevel(WithLogLevel(a)) == WithLogLevel(a)
  {
  }

  /** WithAttrs: the attributes, keyed under the current groups. */
  function WithAttrs(a: Adapter, attrs: seq<Attr>): (r: Adapter)
    ensures r == a.(baseKeyvals := a.baseKeyvals + Flatten(AttrsFields(attrs, a.groups)))
  {
    if attrs == [] then a
    else
      var addition := Flatten(AttrsFields(attrs, a.groups));
      if addition == [] then a else a.(baseKeyvals := a.baseKeyvals + addition)
  }

  /** WithGroup: a non-empty name opens one more group. */
  function WithGroup(a: Adapter, name: Bytes): (r: Adapter)
    ensures r == a.(groups := AppendGroup(a.groups, name))
  {
    if name == [] then a else a.(groups := AppendGroup(a.groups, name))
  }

  // ---- Entries ----

  /** The onelog chain methods newChainEntry picks from. */
  datatype ChainMethod = DebugWith | InfoWith | WarnWith | ErrorWith | FatalWith

  /** newChainEntry: Trace and Debug go to Debug, Panic to Error, Fatal to
      Fatal, and Info, NoLevel and every unnamed level to Info. */
  function NewChainEntry(level: Level): (r: ChainMethod)
    ensures r == DebugWith <==> level == TraceLevel || level == DebugLevel
    ensures r == WarnWith <==> level == WarnLevel
    ensures r == ErrorWith <==> level == ErrorLevel || level == PanicLevel
    ensures r == FatalWith <==> level == FatalLevel
  {
    if level == TraceLevel || level == DebugLevel then DebugWith
    else if level == WarnLevel then WarnWith
    else if level == ErrorLevel || level == PanicLevel then ErrorWith
    else if level == FatalLevel then FatalWith
    else InfoWith
  }

  /** One entry as the adapter builds it. */
  datatype Entry = Entry(chain: ChainMethod, msg: Bytes, fields: seq<Field>)

  /** addKeyvals' reading of a flat list: each key, printed, with the value
      after it; a last key without a value is dropped. */
  function Pairs(keyvals: seq<Value>): (r: seq<Field>)
    ensures 2 * |r| <= |keyvals| <= 2 * |r| + 1
    decreases |keyvals|
  {
    if |keyvals| < 2 then [] else [Field(Sprint(keyvals[0]), keyvals[1])] + Pairs(keyvals[2..])
  }

  /** A normalized list reads back as the fields it was made from. */
  lemma {:induction false} PairsOfFlatten(fs: seq<Field>)
    ensures Pairs(Flatten(fs)) == fs
    decreases |fs|
  {
    if fs != [] {
      var flat := Flatten(fs);
      assert flat[0] == Str(fs[0].key) && flat[1] == fs[0].value;
      assert flat[2..] == Flatten(fs[1..]);
      PairsOfFlatten(fs[1..]);
      assert fs == [fs[0]] + fs[1..];
    }
  }

  lemma PairsFrom(keyvals: seq<Value>, i: nat)
    requires i + 1 < |keyvals|
    ensures Pairs(keyvals[i..]) == [Field(Sprint(keyvals[i]), keyvals[i + 1])] + Pairs(keyvals[i + 2..])
  {
    var s := keyvals[i..];
    assert s[0] == keyvals[i] && s[1] == keyvals[i + 1];
    assert s[2..] == keyvals[i + 2..];
  }

  /** addKeyvals. */
  method AddKeyvals(entry: seq<Field>, keyvals: seq<Value>) returns (out: seq<Field>)
    ensures out == entry + Pairs(keyvals)
  {
    out := entry;
    var i := 0;
    assert keyvals[0..] == keyvals;
    while i + 1 < |keyvals|
      invariant 0 <= i <= |keyvals|
      invariant out + Pairs(keyvals[i..]) == entry + Pairs(keyvals)
      decreases |keyvals| - i
    {
      var key := Sprint(keyvals[i]);
      PairsFrom(keyvals, i);
      Walk.SeqAssoc(out, [Field(key, keyvals[i + 1])], Pairs(keyvals[i + 2..]));
      out := out + [Field(key, keyvals[i + 1])];
      i := i + 2;
    }
  }

  /** appendLogLevel's field, when the adapter includes one. */
  function LogLevelFields(a: Adapter): (r: seq<Field>)
    ensures a.includeLogLevel <==> r != []
    ensures r != [] ==> r == [Field("loglevel", Str(LevelString(CurrentLevel(a))))]
  {
    if a.includeLogLevel then [Field("loglevel", Str(LevelString(CurrentLevel(a))))] else []
  }

  /** The entry for level and msg with the given call fields: the base
      keyvals, then the call's fields, then the loglevel field. */
  function EntryOf(a: Adapter, level: Level, msg: Bytes, fields: seq<Field>): Entry {
    Entry(NewChainEntry(level), msg, Pairs(a.baseKeyvals) + fields + LogLevelFields(a))
  }

  /** log: nothing when the level is filtered out, else one entry whose
      call fields are the keyvals walked under the adapter's groups. */
  function Logged(a: Adapter, level: Level, msg: Bytes, keyvals: seq<Value>): (r: Option<Entry>)
    ensures r.Some? <==> ShouldLog(a, level)
    ensures r.Some? ==> r.value.msg == msg && r.value.chain == NewChainEntry(level)
  {
    if ShouldLog(a, level) then Some(EntryOf(a, level, msg, Fields(keyvals, a.groups, 0, false))) else None
  }

  /** log, as the adapter runs it. */
  method Log(a: Adapter, level: Level, msg: Bytes, keyvals: seq<Value>) returns (entry: Option<Entry>)
    ensures entry == Logged(a, level, msg, keyvals)
  {
    if !ShouldLog(a, level) {
      return None;
    }
    var addition := Walk.NormalizeKeyvals(keyvals, a.groups);
    var e := Build(a, level, msg, Fields(keyvals, a.groups, 0, false), addition);
    entry := Some(e);
  }

  /** The entry log and Handle write once the level has passed: the base
      keyvals, the call's normalized keyvals, then appendLogLevel. */
  method Build(a: Adapter, level: Level, msg: Bytes, ghost fields: seq<Field>, flat: seq<Value>) returns (entry: Entry)
    requires flat == Flatten(fields)
    ensures entry == EntryOf(a, level, msg, fields)
  {
    var out := AddKeyvals([], a.baseKeyvals);
    PairsOfFlatten(fields);
    out := AddKeyvals(out, flat);
    assert out == Pairs(a.baseKeyvals) + fields;
    if a.includeLogLevel {
      out := out + [Field("loglevel", Str(LevelString(CurrentLevel(a))))];
    }
    assert out == Pairs(a.baseKeyvals) + fields + LogLevelFields(a);
    entry := Entry(NewChainEntry(level), msg, out);
  }

  /** What a Logp call does: the entry it writes, whether it calls the
      logger's exit function, and whether it panics. */
  datatype Outcome = Outcome(entry: Option<Entry>, exits: bool, panics: bool)

  /** Logp: each named level goes to its method; NoLevel logs at Info,
      Disabled does nothing, an unnamed level logs as Info. Fatal exits
      only when it wrote its entry; Panic panics in every case. */
  function Logp(a: Adapter, level: Level, msg: Bytes, keyvals: seq<Value>): (r: Outcome)
    ensures level == Disabled ==> r == Outcome(None, false, false)
    ensures level == NoLevel || !IsNamed(level) ==> r == Outcome(Logged(a, InfoLevel, msg, keyvals), false, false)
    ensures r.panics <==> level == PanicLevel
    ensures r.exits <==> level == FatalLevel && r.entry.Some? && a.hasExitFn
    ensures IsNamed(level) && level != NoLevel && level != Disabled ==> r.entry == Logged(a, level, msg, keyvals)
  {
    if level == Disabled then Outcome(None, false, false)
    else if level == NoLevel || !IsNamed(level) then Outcome(Logged(a, InfoLevel, msg, keyvals), false, false)
    else if level == FatalLevel then
      var e := Logged(a, FatalLevel, msg, keyvals);
      Outcome(e, e.Some? && a.hasLogger && a.hasExitFn, false)
    else if level == PanicLevel then Outcome(Logged(a, PanicLevel, msg, keyvals), false, true)
    else Outcome(Logged(a, level, msg, keyvals), false, false)
  }

  /** Logs: a level name that parses, else NoLevel. */
  function Logs(a: Adapter, level: Bytes, msg: Bytes, keyvals: seq<Value>): (r: Outcome)
    ensures !ParseLevel(level).1 ==> r == Logp(a, NoLevel, msg, keyvals)
    ensures ParseLevel(level).1 ==> r == Logp(a, ParseLevel(level).0, msg, keyvals)
  {
    var (lvl, ok) := ParseLevel(level);
    if ok then Logp(a, lvl, msg, keyvals) else Logp(a, NoLevel, msg, keyvals)
  }

  /** A Panic entry goes to onelog's Error method; with a Fatal minimum it
      is still written, and the call panics either way. */
  lemma PanicLogsAsError(a: Adapter, msg: Bytes, keyvals: seq<Value>)
    requires a.hasLogger && a.forcedLevel.None? && a.minLevel <= PanicLevel
    ensures var r := Logp(a, PanicLevel, msg, keyvals);
      r.panics && r.entry.Some? && r.entry.value.chain == ErrorWith
  {
  }

  /** Fields added by With are written before the call's own fields, in
      their order. */
  lemma WithFieldsFirst(a: Adapter, keyvals: seq<Value>, level: Level, msg: Bytes, more: seq<Value>)
    requires a.baseKeyvals == [] && ShouldLog(a, level)
    ensures Logged(With(a, keyvals), level, msg, more).value.fields
      == Fields(keyvals, [], 0, false) + Fields(more, a.groups, 0, false) + LogLevelFields(a)
  {
    var flat := Flatten(Fields(keyvals, [], 0, false));
    PairsOfFlatten(Fields(keyvals, [], 0, false));
    assert With(a, keyvals).baseKeyvals == flat;
    assert CurrentLevel(With(a, keyvals)) == CurrentLevel(a);
  }

  // ---- slog.Handler ----

  /** Handle: the record's level translated, filtered like any call, and
      its attributes walked under the adapter's groups. */
  function Handled(a: Adapter, level: Int64, msg: Bytes, attrs: seq<Attr>): (r: Option<Entry>)
    ensures r.Some? <==> ShouldLog(a, SlogLevelToPort(level))
  {
    var lvl := SlogLevelToPort(level);
    if ShouldLog(a, lvl) then Some(EntryOf(a, lvl, msg, AttrsFields(attrs, a.groups))) else None
  }

  method Handle(a: Adapter, level: Int64, msg: Bytes, attrs: seq<Attr>) returns (entry: Option<Entry>)
    ensures entry == Handled(a, level, msg, attrs)
  {
    var lvl := SlogLevelToPort(level);
    if !ShouldLog(a, lvl) {
      return None;
    }
    var keyvals := Walk.AttrsToKeyvals(attrs, a.groups);
    var e := Build(a, lvl, msg, AttrsFields(attrs, a.groups), keyvals);
    entry := Some(e);
  }

  /** A record is written as a logging call at its translated level would
      write the same attributes passed as one list item. */
  lemma HandleIsLogOfList(a: Adapter, level: Int64, msg: Bytes, attrs: seq<Attr>, json: Rendering)
    ensures Handled(a, level, msg, attrs) == Logged(a, SlogLevelToPort(level), msg, [AttrList(attrs, json)])
  {
    var kv := [AttrList(attrs, json)];
    assert kv[1..] == [];
    assert Fields(kv, a.groups, 0, false) == AttrsFields(attrs, a.groups) + [];
    assert AttrsFields(attrs, a.groups) + [] == AttrsFields(attrs, a.groups);
  }
}
