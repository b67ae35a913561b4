/** The psl adapter (adapters/psl/psl.go): construction from options, level
    filtering, the builders LogLevel, With, WithGroup and WithAttrs, the walk
    that turns keyvals into fields, and logInternal, through which every
    logging call goes. The adapter is a Go value whose methods return new
    values, so it is a datatype here. */
module Psl {
  import opened GoBytes
  import opened Levels
  import opened Keyvals
  import opened Ansi
  import Walk
  import PslConsole
  import PslStructured

  /** The writer, as far as the adapter tells writers apart: none at all
      (the zero adapter), io.Discard, or any other writer. */
  datatype Writer = NilWriter | DiscardWriter | OtherWriter

  datatype Mode = Console | Structured

  /** Mode's Go values; Options.mode may hold any int. */
  const ModeConsole: int := 0
  const ModeStructured: int := 1

  /** Options; a nil MinLevel is None. */
  datatype Options = Options(mode: int, timeFormat: Bytes, disableTimestamp: bool, noColor: bool,
                             colorJSON: bool, minLevel: Option<Level>, verboseFields: bool, utc: bool)

  /** port.DTGTimeFormat (a package variable, taken at its initial value) and time.RFC3339. */
  const DTGTimeFormat: Bytes := "021504"
  const RFC3339: Bytes := "2006-01-02T15:04:05Z07:00"

  /** The layouts the timestamp cache serves: DTG and the time package's
      named layouts. */
  const CacheableLayouts: set<Bytes> := {DTGTimeFormat, RFC3339} + DateLayouts + StampLayouts + ZoneLayouts

  const DateLayouts: set<Bytes> := {
    "2006-01-02T15:04:05.999999999Z07:00",      // RFC3339Nano
    "2006-01-02 15:04:05",                      // DateTime
    "2006-01-02",                               // DateOnly
    "15:04:05",                                 // TimeOnly
    "3:04PM"                                    // Kitchen
  }

  const StampLayouts: set<Bytes> := {
    "Jan _2 15:04:05",                          // Stamp
    "Jan _2 15:04:05.000",                      // StampMilli
    "Jan _2 15:04:05.000000",                   // StampMicro
    "Jan _2 15:04:05.000000000"                 // StampNano
  }

  const ZoneLayouts: set<Bytes> := {
    "Mon Jan _2 15:04:05 2006",                 // ANSIC
    "Mon Jan _2 15:04:05 MST 2006",             // UnixDate
    "Mon Jan 02 15:04:05 -0700 2006",           // RubyDate
    "02 Jan 06 15:04 MST",                      // RFC822
    "02 Jan 06 15:04 -0700",                    // RFC822Z
    "Monday, 02-Jan-06 15:04:05 MST",           // RFC850
    "Mon, 02 Jan 2006 15:04:05 MST",            // RFC1123
    "Mon, 02 Jan 2006 15:04:05 -0700"           // RFC1123Z
  }

  predicate IsCacheableLayout(layout: Bytes) { layout in CacheableLayouts }

  /** The adapter's state. The timestamp cache itself is not modelled;
      useTimeCache records whether the adapter has one. */
  datatype Adapter = Adapter(
    writer: Writer,
    mode: Mode,
    timeFormat: Bytes,
    colorEnabled: bool,
    colorJSONEnabled: bool,
    disableTimestamp: bool,
    minLevel: Level,
    forcedLevel: Option<Level>,
    baseFields: seq<Field>,
    groups: seq<Bytes>,
    verbose: bool,
    useTimeCache: bool,
    useUTC: bool,
    discard: bool)

  // ---- Construction ----

  /** NewWithOptions. terminal is what isTerminal reports for the writer and
      noColorEnv whether NO_COLOR is set to something non-empty. */
  function NewWithOptions(w: Writer, opts: Options, terminal: bool, noColorEnv: bool): (r: Adapter)
    ensures r.writer != NilWriter && (r.discard <==> !w.OtherWriter?)
    ensures r.mode == Structured <==> opts.mode == ModeStructured
    ensures r.minLevel == (if opts.minLevel.Some? then opts.minLevel.value else TraceLevel)
    ensures r.forcedLevel == None && r.baseFields == [] && r.groups == []
    ensures r.timeFormat != [] && (opts.timeFormat != [] ==> r.timeFormat == opts.timeFormat)
    ensures r.colorEnabled <==> !opts.noColor && terminal && !noColorEnv
    ensures r.colorJSONEnabled <==> opts.colorJSON && r.colorEnabled
    ensures r.useTimeCache <==> !opts.disableTimestamp && IsCacheableLayout(r.timeFormat)
  {
    var w' := WriterOf(w);
    var mode := ModeOf(opts.mode);
    var timeFormat := TimeFormatOf(opts.timeFormat, mode);
    var noColor := opts.noColor || !terminal || noColorEnv;
    Adapter(w', mode, timeFormat, !noColor, opts.colorJSON && !noColor, opts.disableTimestamp,
            MinLevelOf(opts.minLevel), None, [], [], opts.verboseFields,
            !opts.disableTimestamp && IsCacheableLayout(timeFormat), opts.utc, w' == DiscardWriter)
  }

  /** A nil writer is replaced by io.Discard. */
  function WriterOf(w: Writer): (r: Writer)
    ensures !r.NilWriter? && (r.DiscardWriter? <==> !w.OtherWriter?)
  {
    if w == NilWriter then DiscardWriter else w
  }

  /** Any mode but ModeStructured is the console. */
  function ModeOf(mode: int): (r: Mode)
    ensures r == Structured <==> mode == ModeStructured
  {
    if mode == ModeStructured then Structured else Console
  }

  /** MinLevel defaults to Trace. */
  function MinLevelOf(minLevel: Option<Level>): (r: Level)
    ensures minLevel.Some? ==> r == minLevel.value
    ensures minLevel.None? ==> r == TraceLevel
  {
    if minLevel.Some? then minLevel.value else TraceLevel
  }

  /** The layout an adapter uses: its own, else DTG on the console and
      RFC 3339 for JSON; both defaults are cacheable. */
  function TimeFormatOf(layout: Bytes, mode: Mode): (r: Bytes)
    ensures r != [] && (layout != [] ==> r == layout)
    ensures layout == [] ==> r == (if mode.Structured? then RFC3339 else DTGTimeFormat)
    ensures layout == [] ==> IsCacheableLayout(r)
  {
    if layout != [] then layout
    else if mode.Console? then assert DTGTimeFormat in CacheableLayouts; DTGTimeFormat
    else assert RFC3339 in CacheableLayouts; RFC3339
  }

  const DefaultOptions: Options := Options(ModeConsole, [], false, false, false, None, false, false)

  /** New, NewStructured and NewStructuredNoColor. */
  function New(w: Writer, terminal: bool, noColorEnv: bool): (r: Adapter)
    ensures r.mode == Console && !r.colorJSONEnabled
  {
    NewWithOptions(w, DefaultOptions, terminal, noColorEnv)
  }

  function NewStructured(w: Writer, terminal: bool, noColorEnv: bool): (r: Adapter)
    ensures r.mode == Structured && (r.colorJSONEnabled <==> r.colorEnabled)
  {
    NewWithOptions(w, DefaultOptions.(mode := ModeStructured, colorJSON := true), terminal, noColorEnv)
  }

  function NewStructuredNoColor(w: Writer, terminal: bool, noColorEnv: bool): (r: Adapter)
    ensures r.mode == Structured && !r.colorJSONEnabled
  {
    NewWithOptions(w, DefaultOptions.(mode := ModeStructured), terminal, noColorEnv)
  }

  /** Without a layout of its own an adapter uses DTG on the console and
      RFC 3339 for JSON, both served by the cache unless timestamps are off. */
  lemma DefaultTimeFormats(w: Writer, opts: Options, terminal: bool, noColorEnv: bool)
    requires opts.timeFormat == []
    ensures var r := NewWithOptions(w, opts, terminal, noColorEnv);
      && r.timeFormat == (if opts.mode == ModeStructured then RFC3339 else DTGTimeFormat)
      && (r.useTimeCache <==> !opts.disableTimestamp)
  {
    var r := NewWithOptions(w, opts, terminal, noColorEnv);
    assert r.timeFormat in CacheableLayouts;
  }

  // ---- Level filtering ----

  /** currentLevel: the forced level when there is one, else the minimum. */
  function CurrentLevel(a: Adapter): (r: Level)
    ensures a.forcedLevel.Some? ==> r == a.forcedLevel.value
    ensures a.forcedLevel.None? ==> r == a.minLevel
  {
    if a.forcedLevel.Some? then a.forcedLevel.value else a.minLevel
  }

  /** shouldLog. A forced level replaces the entry's level: forced Disabled
      lets nothing through and forced NoLevel is compared as Info. */
  function ShouldLog(a: Adapter, level: Level): (r: bool)
    ensures r ==> a.writer != NilWriter && a.forcedLevel != Some(Disabled)
    ensures a.forcedLevel == None ==> (r <==> a.writer != NilWriter && level != Disabled && level >= a.minLevel)
    ensures a.forcedLevel == Some(NoLevel) ==> (r <==> a.writer != NilWriter && InfoLevel >= a.minLevel)
    ensures a.forcedLevel.Some? && a.forcedLevel.value != NoLevel ==>
      (r <==> a.writer != NilWriter && a.forcedLevel.value != Disabled && a.forcedLevel.value >= a.minLevel)
  {
    if a.writer == NilWriter then false
    else
      match a.forcedLevel
      case Some(f) =>
        if f == Disabled then false
        else
          var effective := if f == NoLevel then InfoLevel else f;
          effective != Disabled && effective >= a.minLevel
      case None =>
        level != Disabled && level >= a.minLevel
  }

  /** Enabled: the slog level translated, then filtered. Without a forced
      level a record is enabled iff there is a writer and its level reaches
      the minimum. */
  predicate Enabled(a: Adapter, level: Int64)
    ensures Enabled(a, level) ==> a.writer != NilWriter && a.forcedLevel != Some(Disabled)
    ensures a.forcedLevel.None? ==>
      (Enabled(a, level) <==> a.writer != NilWriter && LevelFromSlog(level) >= a.minLevel)
  {
    ShouldLog(a, LevelFromSlog(level))
  }

  /** Without a forced level, raising the level never drops an entry that a
      lower level lets through, short of Disabled. */
  lemma ShouldLogMonotone(a: Adapter, lo: Level, hi: Level)
    requires lo <= hi && hi != Disabled
    ensures ShouldLog(a, lo) ==> ShouldLog(a, hi)
  {
  }

  /** LogLevel: NoLevel is forced and keeps the minimum; any other level
      becomes the minimum and drops the forced level. Nothing else changes. */
  function LogLevel(a: Adapter, level: Level): (r: Adapter)
    ensures CurrentLevel(r) == level
    ensures r.minLevel == (if level == NoLevel then a.minLevel else level)
    ensures r.forcedLevel == (if level == NoLevel then Some(NoLevel) else None)
    ensures r == a.(minLevel := r.minLevel, forcedLevel := r.forcedLevel)
  {
    if level == NoLevel then a.(forcedLevel := Some(level))
    else a.(minLevel := level, forcedLevel := None)
  }

  /** After LogLevel(m) for any m but NoLevel, an entry passes iff its level
      is at least m and is not Disabled. */
  lemma LogLevelThreshold(a: Adapter, m: Level, level: Level)
    requires m != NoLevel
    ensures ShouldLog(LogLevel(a, m), level) <==> a.writer != NilWriter && level != Disabled && level >= m
  {
  }

  /** After LogLevel(NoLevel) every entry is filtered as if it were Info. */
  lemma LogLevelNoLevel(a: Adapter, level: Level)
    ensures ShouldLog(LogLevel(a, NoLevel), level) <==> a.writer != NilWriter && InfoLevel >= a.minLevel
  {
  }

  /** LogLevel(Disabled) silences every named level. */
  lemma LogLevelDisabledSilences(a: Adapter, level: Level)
    requires IsNamed(level)
    ensures !ShouldLog(LogLevel(a, Disabled), level)
  {
  }

  /** An unnamed level above Disabled still passes after LogLevel(Disabled). */
  lemma LogLevelDisabledPassesAbove(a: Adapter)
    requires a.writer != NilWriter
    ensures ShouldLog(LogLevel(a, Disabled), Disabled + 1)
  {
  }

  /** LogLevelFromEnv: the variable's level when it parses, else no change. */
  function LogLevelFromEnv(a: Adapter, key: Bytes, lookup: Option<Bytes>): (r: Adapter)
    ensures key == [] || lookup.None? || !ParseLevel(lookup.value).1 ==> r == a
    ensures key != [] && lookup.Some? && ParseLevel(lookup.value).1 ==> CurrentLevel(r) == ParseLevel(lookup.value).0
    ensures r.baseFields == a.baseFields && r.groups == a.groups
  {
    var (level, ok) := LevelFromEnv(key, lookup);
    if ok then LogLevel(a, level) else a
  }

  /** A fresh adapter without MinLevel lets every level from Trace up
      through, except Disabled. */
  lemma NewLogsFromTrace(w: Writer, opts: Options, terminal: bool, noColorEnv: bool, level: Level)
    requires opts.minLevel.None?
    ensures ShouldLog(NewWithOptions(w, opts, terminal, noColorEnv), level) <==> TraceLevel <= level && level != Disabled
  {
  }

  // ---- Builders ----

  /** With: the pairs become fields after the base fields, outside any group
      (the walk runs without the adapter's groups). */
  function With(a: Adapter, keyvals: seq<Value>): (r: Adapter)
    ensures r == a.(baseFields := a.baseFields + Fields(keyvals, [], 0, false))
  {
    if keyvals == [] then a
    else
      var fields := Fields(keyvals, [], 0, false);
      if fields == [] then a else a.(baseFields := a.baseFields + fields)
  }

  /** WithLogLevel: a "loglevel" field naming the current level. */
  function WithLogLevel(a: Adapter): (r: Adapter)
    ensures r == a.(baseFields := a.baseFields + [Field("loglevel", Str(LevelString(CurrentLevel(a))))])
  {
    var kv := [Str("loglevel"), Str(LevelString(CurrentLevel(a)))];
    assert kv[2..] == [];
    FieldsPairStep(kv, [], 0, false);
    With(a, kv)
  }

  /** WithGroup: a non-empty name opens one more group. */
  function WithGroup(a: Adapter, name: Bytes): (r: Adapter)
    ensures r == a.(groups := AppendGroup(a.groups, name))
  {
    if name == [] then a else a.(groups := a.groups + [name])
  }

  /** WithAttrs: the attributes become fields under the current groups. */
  function WithAttrs(a: Adapter, attrs: seq<Attr>): (r: Adapter)
    ensures r == a.(baseFields := a.baseFields + AttrsFields(attrs, a.groups))
  {
    if attrs == [] then a else a.(baseFields := a.baseFields + AttrsFields(attrs, a.groups))
  }

  /** With over plain key/value pairs adds one field per pair, in order,
      keyed by the printed key. */
  lemma WithPairs(a: Adapter, keyvals: seq<Value>, p: nat, k: nat)
    requires |keyvals| == 2 * p && k < p
    requires forall j :: 0 <= j < |keyvals| ==> !IsAttrItem(keyvals[j])
    ensures var fs := With(a, keyvals).baseFields;
      |fs| == |a.baseFields| + p
      && fs[|a.baseFields| + k] == Field(Sprint(keyvals[2 * k]), keyvals[2 * k + 1])
  {
    FieldsOfPairsCount(keyvals, [], 0, false, p, 0);
    FieldsOfPairsAt(keyvals, [], 0, false, k);
  }

  // ---- logInternal ----

  /** The fields of one entry: the base fields, then the call's keyvals
      walked under the adapter's groups. */
  function EntryFields(a: Adapter, keyvals: seq<Value>): seq<Field> {
    a.baseFields + Fields(keyvals, a.groups, 0, false)
  }

  function Names(a: Adapter): PslStructured.FieldNames {
    if a.verbose then PslStructured.VerboseNames else PslStructured.ShortNames
  }

  /** The timestamp the entry carries: now is the text the timestamp cache or
      the clock gives in the adapter's layout. */
  function Stamp(a: Adapter, now: Bytes): Bytes {
    if a.disableTimestamp then [] else now
  }

  /** The line the adapter formats, without its newline. */
  function Line(a: Adapter, level: Level, msg: Bytes, fields: seq<Field>, now: Bytes): Bytes {
    var includeTime := !a.disableTimestamp;
    if a.mode == Console then
      Render(PslConsole.ConsolePieces(level, msg, fields, Stamp(a, now), includeTime, a.colorEnabled))
    else
      PslStructured.StructuredLine(level, msg, fields, Stamp(a, now), includeTime, Names(a),
                                   a.colorJSONEnabled, a.colorEnabled)
  }

  /** What logInternal hands the writer, if anything: a Disabled entry, one
      the filter drops, and every entry of a discarding adapter are never
      formatted; any other is one line ending in a newline. */
  function Emitted(a: Adapter, level: Level, msg: Bytes, keyvals: seq<Value>, now: Bytes): (r: Option<Bytes>)
    ensures r.Some? <==> level != Disabled && ShouldLog(a, level) && !a.discard
    ensures r.Some? ==> r.value != [] && r.value[|r.value| - 1] == '\n'
  {
    if level == Disabled || !ShouldLog(a, level) || a.discard then None
    else Some(Line(a, level, msg, EntryFields(a, keyvals), now) + ['\n'])
  }

  /** logInternal. */
  method LogInternal(a: Adapter, level: Level, msg: Bytes, keyvals: seq<Value>, now: Bytes) returns (written: Option<Bytes>)
    ensures written == Emitted(a, level, msg, keyvals, now)
  {
    if level == Disabled || !ShouldLog(a, level) || a.discard {
      return None;
    }
    var fields: seq<Field> := [];
    if |a.baseFields| > 0 {
      fields := fields + a.baseFields;
    }
    if |keyvals| > 0 {
      fields := Walk.CollectKeyvals(fields, keyvals, a.groups);
    }
    assert fields == EntryFields(a, keyvals);
    var buf := Format(a, level, msg, fields, now);
    written := Some(buf + ['\n']);
  }

  /** The formatting half of logInternal: the timestamp, when the adapter
      shows one, and the console or JSON writer the mode selects. */
  method Format(a: Adapter, level: Level, msg: Bytes, fields: seq<Field>, now: Bytes) returns (buf: Bytes)
    ensures buf == Line(a, level, msg, fields, now)
  {
    var includeTime := !a.disableTimestamp;
    var timestamp: Bytes := [];
    if includeTime {
      timestamp := now;
    }
    buf := [];
    if a.mode == Console {
      buf := PslConsole.WriteConsole(buf, level, msg, fields, timestamp, includeTime, a.colorEnabled);
    } else {
      var names := PslStructured.ShortNames;
      if a.verbose {
        names := PslStructured.VerboseNames;
      }
      buf := PslStructured.WriteStructured(buf, level, msg, fields, timestamp, includeTime, names,
                                           a.colorJSONEnabled, a.colorEnabled);
    }
  }

  // ---- The slog and logport entry points ----

  /** The record's attributes as the keyvals Handle builds. */
  function AttrItems(attrs: seq<Attr>): (r: seq<Value>)
    ensures |r| == |attrs| && forall k :: 0 <= k < |r| ==> r[k] == AttrV(attrs[k])
  {
    seq(|attrs|, k requires 0 <= k < |attrs| => AttrV(attrs[k]))
  }

  /** Handle: slog's record, translated level, attributes as keyvals. */
  method Handle(a: Adapter, level: Int64, msg: Bytes, attrs: seq<Attr>, now: Bytes) returns (written: Option<Bytes>)
    ensures written == Emitted(a, LevelFromSlog(level), msg, AttrItems(attrs), now)
  {
    if !ShouldLog(a, LevelFromSlog(level)) {
      return None;
    }
    var keyvals: seq<Value> := [];
    for k := 0 to |attrs|
      invariant keyvals == AttrItems(attrs[..k])
    {
      keyvals := keyvals + [AttrV(attrs[k])];
    }
    assert attrs[..|attrs|] == attrs;
    written := LogInternal(a, LevelFromSlog(level), msg, keyvals, now);
  }

  /** The keyvals Handle builds walk to the attributes' fields. */
  lemma {:induction false} FieldsOfAttrItems(attrs: seq<Attr>, groups: seq<Bytes>, n: nat)
    ensures Fields(AttrItems(attrs), groups, n, false) == AttrsFields(attrs, groups)
    decreases |attrs|
  {
    if attrs != [] {
      var items := AttrItems(attrs);
      assert items[0] == AttrV(attrs[0]);
      assert items[1..] == AttrItems(attrs[1..]);
      FieldsOfAttrItems(attrs[1..], groups, n);
    }
  }

  /** A handled record's fields are the base fields, then its attributes
      under the adapter's groups. */
  lemma HandleFields(a: Adapter, attrs: seq<Attr>)
    ensures EntryFields(a, AttrItems(attrs)) == a.baseFields + AttrsFields(attrs, a.groups)
  {
    FieldsOfAttrItems(attrs, a.groups, 0);
  }

  /** After WithGroup(name), every field a handled record adds is keyed
      under the dotted group path ending in name. */
  lemma WithGroupKeysRecord(a: Adapter, name: Bytes, attrs: seq<Attr>)
    requires name != []
    ensures var g := WithGroup(a, name);
      forall f :: f in EntryFields(g, AttrItems(attrs))[|a.baseFields|..] ==>
        IsPrefix(Join(a.groups + [name], "."), f.key)
  {
    var g := WithGroup(a, name);
    HandleFields(g, attrs);
    AttrsFieldsKeyedByGroup(attrs, a.groups + [name]);
    assert EntryFields(g, AttrItems(attrs))[|a.baseFields|..] == AttrsFields(attrs, a.groups + [name]);
  }

  /** Logs: a level given as text; text ParseLevel rejects logs at NoLevel. */
  function Logs(a: Adapter, level: Bytes, msg: Bytes, keyvals: seq<Value>, now: Bytes): (r: Option<Bytes>)
    ensures !ParseLevel(level).1 ==> r == Emitted(a, NoLevel, msg, keyvals, now)
  {
    var (l, ok) := ParseLevel(level);
    if ok then Emitted(a, l, msg, keyvals, now) else Emitted(a, NoLevel, msg, keyvals, now)
  }

  /** A level's own name selects that level. */
  lemma LogsByName(a: Adapter, level: Level, msg: Bytes, keyvals: seq<Value>, now: Bytes)
    requires IsNamed(level)
    ensures Logs(a, LevelString(level), msg, keyvals, now) == Emitted(a, level, msg, keyvals, now)
  {
    ParseLevelString(level);
  }

  // ---- Properties of the emitted line ----

  /** A nil writer becomes io.Discard, and a discarding adapter never
      formats anything. */
  lemma DiscardWritesNothing(w: Writer, opts: Options, terminal: bool, noColorEnv: bool,
                             level: Level, msg: Bytes, keyvals: seq<Value>, now: Bytes)
    requires w != OtherWriter
    ensures Emitted(NewWithOptions(w, opts, terminal, noColorEnv), level, msg, keyvals, now) == None
  {
  }

  /** Without colour a console line carries no SGR sequence: it is the
      text of its pieces and a newline. */
  lemma ConsoleWithoutColour(a: Adapter, level: Level, msg: Bytes, keyvals: seq<Value>, now: Bytes)
    requires a.mode == Console && !a.colorEnabled
    requires Emitted(a, level, msg, keyvals, now).Some?
    ensures var ps := PslConsole.ConsolePieces(level, msg, EntryFields(a, keyvals), Stamp(a, now), !a.disableTimestamp, false);
      NoSgr(ps) && Emitted(a, level, msg, keyvals, now) == Some(Stripped(ps) + ['\n'])
  {
    PslConsole.NoColourNoSgr(level, msg, EntryFields(a, keyvals), Stamp(a, now), !a.disableTimestamp);
  }

  /** A structured line without colour reads back, as a JSON object, to
      its members in order: time, level, message, then every field. */
  lemma StructuredReadsBack(a: Adapter, level: Level, msg: Bytes, keyvals: seq<Value>, now: Bytes)
    requires a.mode == Structured && !(a.colorJSONEnabled && a.colorEnabled)
    requires !a.disableTimestamp ==> PslStructured.AllPlain(now)
    requires PslStructured.FieldsReadable(EntryFields(a, keyvals))
    requires Emitted(a, level, msg, keyvals, now).Some?
    ensures var out := Emitted(a, level, msg, keyvals, now).value;
      PslStructured.ReadObject(out[..|out| - 1])
        == Some(PslStructured.LineMembers(level, msg, EntryFields(a, keyvals), Stamp(a, now), !a.disableTimestamp, Names(a)))
  {
    PslStructured.NamePrefixes();
    PslStructured.LineReadsBack(level, msg, EntryFields(a, keyvals), Stamp(a, now), !a.disableTimestamp, Names(a),
                                a.colorJSONEnabled, a.colorEnabled);
    var out := Emitted(a, level, msg, keyvals, now).value;
    assert out[..|out| - 1] == Line(a, level, msg, EntryFields(a, keyvals), now);
  }

  /** A coloured structured line, its SGR sequences removed, reads back to
      the same members. */
  lemma ColouredStructuredReadsBack(a: Adapter, level: Level, msg: Bytes, keyvals: seq<Value>, now: Bytes)
    requires a.mode == Structured && a.colorJSONEnabled && a.colorEnabled
    requires PslStructured.FieldsReadable(EntryFields(a, keyvals))
    requires forall k :: 0 <= k < |EntryFields(a, keyvals)| ==> PslStructured.RawEscFree(EntryFields(a, keyvals)[k].value)
    requires Emitted(a, level, msg, keyvals, now).Some?
    ensures var out := Emitted(a, level, msg, keyvals, now).value;
      PslStructured.ReadObject(StripSgr(out[..|out| - 1]))
        == Some(PslStructured.LineMembers(level, msg, EntryFields(a, keyvals), Stamp(a, now), !a.disableTimestamp, Names(a)))
  {
    PslStructured.ColouredLineReadsBack(level, msg, EntryFields(a, keyvals), Stamp(a, now), !a.disableTimestamp, Names(a));
    var out := Emitted(a, level, msg, keyvals, now).value;
    assert out[..|out| - 1] == Line(a, level, msg, EntryFields(a, keyvals), now);
  }
}
