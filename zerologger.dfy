/** The zerolog adapter (adapters/zerologger/zerologger.go): the level
    tables between logport and zerolog, the map of fields the adapter builds
    from key/value lists, the builders, the event each logging call asks
    zerolog for, and the JSON form of its options. zerolog itself (its
    writers, its own level filter, the encoding of fields) is outside the
    model: a logger is the configuration the adapter gives it. */
module ZeroLogger {
  import opened GoBytes
  import opened Levels
  import opened Keyvals
  import Walk

  // ---- zerolog levels ----

  /** zerolog.Level, an int8; zerolog numbers its levels exactly as logport
      does. */
  type ZeroLevel = Int8

  const ZTrace: ZeroLevel := -1
  const ZDebug: ZeroLevel := 0
  const ZInfo: ZeroLevel := 1
  const ZWarn: ZeroLevel := 2
  const ZError: ZeroLevel := 3
  const ZFatal: ZeroLevel := 4
  const ZPanic: ZeroLevel := 5
  const ZNoLevel: ZeroLevel := 6
  const ZDisabled: ZeroLevel := 7

  predicate IsZeroNamed(l: ZeroLevel) { ZTrace <= l <= ZDisabled }

  /** portLevelToZero: each named level to its zerolog namesake, anything
      else to Info. */
  function PortLevelToZero(level: Level): (r: ZeroLevel)
    ensures IsZeroNamed(r)
    ensures !IsNamed(level) ==> r == ZInfo
  {
    match level
    case -1 => ZTrace
    case 6 => ZNoLevel
    case 0 => ZDebug
    case 1 => ZInfo
    case 2 => ZWarn
    case 3 => ZError
    case 4 => ZFatal
    case 5 => ZPanic
    case 7 => ZDisabled
    case _ => ZInfo
  }

  /** zerologLevelToPort: the inverse table, unknown values reading Info. */
  function ZeroLevelToPort(level: ZeroLevel): (r: Level)
    ensures IsNamed(r)
    ensures !IsZeroNamed(level) ==> r == InfoLevel
  {
    match level
    case -1 => TraceLevel
    case 0 => DebugLevel
    case 1 => InfoLevel
    case 2 => WarnLevel
    case 3 => ErrorLevel
    case 4 => FatalLevel
    case 5 => PanicLevel
    case 6 => NoLevel
    case 7 => Disabled
    case _ => InfoLevel
  }

  /** The two tables are inverse on the nine named levels, and keep their
      order. */
  lemma LevelTablesRoundTrip(l: Level, z: ZeroLevel)
    ensures IsNamed(l) ==> ZeroLevelToPort(PortLevelToZero(l)) == l
    ensures IsZeroNamed(z) ==> PortLevelToZero(ZeroLevelToPort(z)) == z
    ensures IsNamed(l) ==> PortLevelToZero(l) == l
  {
  }

  /** slogLevelToZero: bands closed at their upper slog level. */
  function SlogLevelToZero(level: Int64): (r: ZeroLevel)
    ensures ZTrace <= r <= ZFatal
    ensures r == ZTrace <==> level < SlogDebug
    ensures r == ZFatal <==> level > SlogError
  {
    if level < SlogDebug then ZTrace
    else if level <= SlogDebug then ZDebug
    else if level <= SlogInfo then ZInfo
    else if level <= SlogWarn then ZWarn
    else if level <= SlogError then ZError
    else ZFatal
  }

  lemma SlogLevelToZeroMonotone(x: Int64, y: Int64)
    requires x <= y
    ensures SlogLevelToZero(x) <= SlogLevelToZero(y)
  {
  }

  /** At slog's named levels the translation agrees with
      logport.LevelFromSlog; in between it rounds up, so at -3 it gives
      Info where LevelFromSlog gives Debug. */
  lemma SlogLevelToZeroAgainstLevelFromSlog(level: Int64)
    ensures LevelFromSlog(level) <= ZeroLevelToPort(SlogLevelToZero(level))
    ensures level in {SlogDebug, SlogInfo, SlogWarn, SlogError} ==> ZeroLevelToPort(SlogLevelToZero(level)) == LevelFromSlog(level)
    ensures SlogLevelToZero(-3) == ZInfo && LevelFromSlog(-3) == DebugLevel
  {
  }

  // ---- The field map ----

  /** The map the fields give when they are stored in order: a later field
      overwrites an earlier one with the same key. */
  function FieldMap(fs: seq<Field>): map<Bytes, Value>
    decreases |fs|
  {
    if fs == [] then map[]
    else FieldMap(fs[..|fs| - 1])[fs[|fs| - 1].key := fs[|fs| - 1].value]
  }

  lemma FieldMapSnoc(fs: seq<Field>, f: Field)
    ensures FieldMap(fs + [f]) == FieldMap(fs)[f.key := f.value]
  {
    assert (fs + [f])[..|fs|] == fs;
  }

  /** The map has a key exactly for each field's key. */
  lemma {:induction false} FieldMapKeys(fs: seq<Field>, key: Bytes)
    ensures key in FieldMap(fs) <==> exists j :: 0 <= j < |fs| && fs[j].key == key
    decreases |fs|
  {
    if fs != [] {
      var init := fs[..|fs| - 1];
      FieldMapKeys(init, key);
      if key in FieldMap(fs) && key != fs[|fs| - 1].key {
        var j :| 0 <= j < |init| && init[j].key == key;
        assert fs[j].key == key;
      }
      if (exists j :: 0 <= j < |fs| && fs[j].key == key) && key != fs[|fs| - 1].key {
        var j :| 0 <= j < |fs| && fs[j].key == key;
        assert init[j].key == key;
      }
    }
  }

  /** The value under a key is that of the last field with that key. */
  lemma {:induction false} FieldMapLastWins(fs: seq<Field>, j: nat)
    requires j < |fs|
    requires forall k :: j < k < |fs| ==> fs[k].key != fs[j].key
    ensures fs[j].key in FieldMap(fs) && FieldMap(fs)[fs[j].key] == fs[j].value
    decreases |fs|
  {
    if j < |fs| - 1 {
      var init := fs[..|fs| - 1];
      assert fs[|fs| - 1].key != fs[j].key;
      assert forall k :: j < k < |init| ==> init[k].key != init[j].key by {
        forall k | j < k < |init| ensures init[k].key != init[j].key {
          assert init[k] == fs[k];
        }
      }
      FieldMapLastWins(init, j);
    }
  }

  /** What fieldsFromKeyvals returns: nil for no items, otherwise the map of
      the walk's fields. */
  function KeyvalsMap(keyvals: seq<Value>, groups: seq<Bytes>): Option<map<Bytes, Value>> {
    if keyvals == [] then None else Some(FieldMap(Fields(keyvals, groups, 0, false)))
  }

  /** One pair of the scratch slice stored: its key printed back is the
      field's key, and the map grows by that field. */
  lemma StoreFlatStep(scratch: seq<Value>, done: seq<Field>, fs: seq<Field>, k: nat)
    requires scratch == Flatten(fs) && k < |fs|
    ensures Sprint(scratch[2 * k]) == fs[k].key && scratch[2 * k + 1] == fs[k].value
    ensures FieldMap(done + fs[..k + 1]) == FieldMap(done + fs[..k])[fs[k].key := fs[k].value]
  {
    FlattenAt(fs, k);
    FieldMapSnoc(done + fs[..k], fs[k]);
    assert done + fs[..k + 1] == done + fs[..k] + [fs[k]];
  }

  /** Stores the pairs of a flat key/value list (the scratch slice) into
      the map, two items at a time. */
  method StoreFlat(fields: map<Bytes, Value>, scratch: seq<Value>, ghost done: seq<Field>, ghost fs: seq<Field>)
    returns (r: map<Bytes, Value>)
    requires scratch == Flatten(fs) && fields == FieldMap(done)
    ensures r == FieldMap(done + fs)
  {
    r := fields;
    var j := 0;
    ghost var k := 0;
    assert done + fs[..0] == done;
    while j < |scratch|
      invariant j == 2 * k && k <= |fs|
      invariant r == FieldMap(done + fs[..k])
      decreases |scratch| - j
    {
      StoreFlatStep(scratch, done, fs, k);
      var key := Sprint(scratch[j]);
      r := r[key := scratch[j + 1]];
      j := j + 2;
      k := k + 1;
    }
    assert fs[..k] == fs;
  }

  /** The []slog.Attr case: each attribute is flattened into the scratch
      slice and stored. */
  method StoreAttrs(fields: map<Bytes, Value>, attrs: seq<Attr>, groups: seq<Bytes>, ghost done: seq<Field>)
    returns (r: map<Bytes, Value>)
    requires fields == FieldMap(done)
    ensures r == FieldMap(done + AttrsFields(attrs, groups))
  {
    r := fields;
    ghost var d := done;
    for k := 0 to |attrs|
      invariant d + AttrsFields(attrs[k..], groups) == done + AttrsFields(attrs, groups)
      invariant r == FieldMap(d)
    {
      Walk.AttrsFieldsFrom(attrs, k, groups);
      var scratch := Walk.AppendAttrKeyvals([], attrs[k], groups);
      r := StoreFlat(r, scratch, d, AttrFields(attrs[k], groups));
      Walk.SeqAssoc(d, AttrFields(attrs[k], groups), AttrsFields(attrs[k + 1..], groups));
      d := d + AttrFields(attrs[k], groups);
    }
    assert AttrsFields(attrs[|attrs|..], groups) == [];
    assert d + [] == d;
  }

  /** The slog.Attr and []slog.Attr cases of fieldsFromKeyvals. */
  method StoreItem(fields: map<Bytes, Value>, item: Value, groups: seq<Bytes>, ghost done: seq<Field>)
    returns (r: map<Bytes, Value>)
    requires IsAttrItem(item) && fields == FieldMap(done)
    ensures r == FieldMap(done + ItemFields(item, groups))
  {
    if item.AttrV? {
      var scratch := Walk.AppendAttrKeyvals([], item.attr, groups);
      r := StoreFlat(fields, scratch, done, AttrFields(item.attr, groups));
    } else {
      r := StoreAttrs(fields, item.attrs, groups, done);
    }
  }

  /** fieldsFromKeyvals: the items walked as key/value pairs, attributes
      and attribute lists, stored into one map, so that a later key
      overwrites an earlier one; nil for an empty list. */
  method FieldsFromKeyvals(keyvals: seq<Value>, groups: seq<Bytes>) returns (fields: Option<map<Bytes, Value>>)
    ensures fields == KeyvalsMap(keyvals, groups)
  {
    if |keyvals| == 0 {
      return None;
    }
    ghost var total := Fields(keyvals, groups, 0, false);
    ghost var done: seq<Field> := [];
    var m: map<Bytes, Value> := map[];
    var pairIndex: nat := 0;
    var i := 0;
    while i < |keyvals|
      invariant 0 <= i <= |keyvals|
      invariant done + Fields(keyvals[i..], groups, pairIndex, false) == total
      invariant m == FieldMap(done)
      decreases |keyvals| - i
    {
      if IsAttrItem(keyvals[i]) {
        Walk.ItemStep(keyvals, groups, i, pairIndex, false, done, total);
        m := StoreItem(m, keyvals[i], groups, done);
        done := done + ItemFields(keyvals[i], groups);
        i := i + 1;
      } else if i + 1 < |keyvals| {
        var key := Sprint(keyvals[i]);
        if |groups| > 0 {
          key := JoinAttrKey(groups, key);
        }
        Walk.PairStep(keyvals, groups, i, pairIndex, false, done, total);
        FieldMapSnoc(done, Field(key, keyvals[i + 1]));
        m := m[key := keyvals[i + 1]];
        done := done + [Field(key, keyvals[i + 1])];
        pairIndex := pairIndex + 1;
        i := i + 2;
      } else {
        var key := ArgKey(pairIndex);
        if |groups| > 0 {
          key := JoinAttrKey(groups, key);
        }
        Walk.LastStep(keyvals, groups, i, pairIndex, false, done, total);
        FieldMapSnoc(done, Field(key, keyvals[i]));
        m := m[key := keyvals[i]];
        done := done + [Field(key, keyvals[i])];
        pairIndex := pairIndex + 1;
        i := i + 1;
      }
    }
    assert Fields(keyvals[i..], groups, pairIndex, false) == [];
    assert done + [] == done;
    return Some(m);
  }

  /** The map of two fields. */
  lemma FieldMapTwo(f: Field, g: Field)
    ensures FieldMap([f, g]) == map[f.key := f.value][g.key := g.value]
  {
    FieldMapSnoc([f], g);
    FieldMapSnoc([], f);
    assert [f, g] == [f] + [g] && [f] == [] + [f];
  }

  /** The fields of two key/value pairs. */
  lemma FieldsOfTwoPairs(kv: seq<Value>)
    requires |kv| == 4 && !IsAttrItem(kv[0]) && !IsAttrItem(kv[2])
    ensures Fields(kv, [], 0, false) == [Field(Sprint(kv[0]), kv[1]), Field(Sprint(kv[2]), kv[3])]
  {
    assert kv[2..][2..] == [];
    assert Fields(kv[2..], [], 1, false) == [Field(Sprint(kv[2]), kv[3])] + Fields(kv[2..][2..], [], 2, false);
  }

  /** A numeric key is stringified: foo, bar, 99, answer gives exactly
      foo: bar and "99": answer. */
  lemma FieldsFromKeyvalsExample()
    ensures KeyvalsMap([Str("foo"), Str("bar"), Int(99), Str("answer")], [])
      == Some(map["foo" := Str("bar"), "99" := Str("answer")])
  {
    var kv := [Str("foo"), Str("bar"), Int(99), Str("answer")];
    assert Sprint(Int(99)) == "99" by {
      assert NatDigits(99) == NatDigits(9) + [DigitChar(9)];
    }
    FieldsOfTwoPairs(kv);
    FieldMapTwo(Field("foo", Str("bar")), Field("99", Str("answer")));
  }

  /** A trailing value is keyed by the number of pairs before it. */
  lemma FieldsFromKeyvalsOddCount()
    ensures KeyvalsMap([Str("foo"), Str("bar"), Str("trailing")], [])
      == Some(map["foo" := Str("bar"), "arg1" := Str("trailing")])
  {
    var kv := [Str("foo"), Str("bar"), Str("trailing")];
    assert ArgKey(1) == "arg1" by {
      assert NatDigits(1) == "1";
    }
    assert kv[2..] == [Str("trailing")];
    assert Fields(kv, [], 0, false) == [Field("foo", Str("bar")), Field("arg1", Str("trailing"))];
    FieldMapTwo(Field("foo", Str("bar")), Field("arg1", Str("trailing")));
  }

  /** A later pair overwrites an earlier one with the same key. */
  lemma LaterKeyOverwrites(k: Bytes, v1: Value, v2: Value)
    ensures KeyvalsMap([Str(k), v1, Str(k), v2], []) == Some(map[k := v2])
  {
    FieldsOfTwoPairs([Str(k), v1, Str(k), v2]);
    FieldMapTwo(Field(k, v1), Field(k, v2));
    assert map[k := v1][k := v2] == map[k := v2];
  }

  // ---- appendUnique ----

  /** appendUnique: the part is appended unless it is already there. */
  method AppendUnique(parts: seq<Bytes>, part: Bytes) returns (r: seq<Bytes>)
    ensures part in parts ==> r == parts
    ensures part !in parts ==> r == parts + [part]
  {
    for i := 0 to |parts|
      invariant part !in parts[..i]
    {
      if parts[i] == part {
        return parts;
      }
      assert parts[..i + 1] == parts[..i] + [parts[i]];
    }
    assert parts[..|parts|] == parts;
    return parts + [part];
  }

  /** The list appendUnique returns, for use in the model's functions. */
  function Unique(parts: seq<Bytes>, part: Bytes): seq<Bytes> {
    if part in parts then parts else parts + [part]
  }

  /** appendUnique is idempotent, keeps what was there in its place, adds
      only the part, and keeps a list free of repeats. */
  lemma UniqueProperties(parts: seq<Bytes>, part: Bytes)
    ensures Unique(Unique(parts, part), part) == Unique(parts, part)
    ensures part in Unique(parts, part)
    ensures |parts| <= |Unique(parts, part)| <= |parts| + 1 && Unique(parts, part)[..|parts|] == parts
    ensures forall x :: x in Unique(parts, part) ==> x in parts || x == part
    ensures (forall i, j :: 0 <= i < j < |parts| ==> parts[i] != parts[j]) ==>
      (forall i, j :: 0 <= i < j < |Unique(parts, part)| ==> Unique(parts, part)[i] != Unique(parts, part)[j])
  {
  }

  // ---- The logger the adapter configures ----

  /** zerolog.ConsoleWriter, reduced to what the adapter sets. */
  datatype ConsoleWriter = ConsoleWriter(noColor: bool, timeFormat: Bytes, partsExclude: seq<Bytes>)

  datatype Writer = Console(console: ConsoleWriter) | JsonWriter

  /** A zerolog.Logger: its writer, whether it stamps a timestamp, its
      minimum level, and the field maps With and WithAttrs attached to its
      context, in order. */
  datatype Logger = Logger(writer: Writer, timestamp: bool, level: ZeroLevel, context: seq<map<Bytes, Value>>)

  /** zerolog.New: no timestamp, no context, level Trace. */
  function NewLogger(w: Writer): Logger { Logger(w, false, ZTrace, []) }

  /** zerolog.TimestampFieldName. */
  const TimestampFieldName: Bytes := "time"

  /** port.DTGTimeFormat, taken at its initial value. */
  const DTGTimeFormat: Bytes := "021504"

  /** Options. hasConfigureWriter says whether ConfigureWriter is set; the
      callback itself is a parameter of NewWithOptions. */
  datatype Options = Options(
    hasConfigureWriter: bool,
    level: Option<ZeroLevel>,
    noColor: bool,
    timeFormat: Bytes,
    disableTimestamp: bool,
    structured: bool)

  /** The adapter: a logger, the open slog groups, and a forced level. */
  datatype Adapter = Adapter(logger: Logger, groups: seq<Bytes>, forcedLevel: Option<Level>)

  function NewFromLogger(logger: Logger): (r: Adapter)
    ensures r.logger == logger && r.groups == [] && r.forcedLevel.None?
  {
    Adapter(logger, [], None)
  }

  /** NewWithOptions, terminal saying whether the writer is a terminal and
      configure standing for ConfigureWriter. The console writer is set up,
      then handed to ConfigureWriter, and only then is the timestamp part
      excluded, so that it is excluded exactly once. */
  function NewWithOptions(o: Options, terminal: bool, configure: ConsoleWriter -> ConsoleWriter): (r: Adapter)
    ensures r.groups == [] && r.forcedLevel.None? && r.logger.context == []
    ensures r.logger.timestamp == !o.disableTimestamp
    ensures r.logger.level == if o.level.Some? then o.level.value else ZTrace
    ensures r.logger.writer.JsonWriter? <==> o.structured
    ensures !o.structured && !o.hasConfigureWriter ==>
      r.logger.writer.console.noColor == (o.noColor || !terminal) &&
      r.logger.writer.console.timeFormat == (if o.timeFormat == [] then DTGTimeFormat else o.timeFormat)
    ensures !o.structured && o.disableTimestamp ==> TimestampFieldName in r.logger.writer.console.partsExclude
    ensures !o.structured && !o.hasConfigureWriter ==>
      r.logger.writer.console.partsExclude == if o.disableTimestamp then [TimestampFieldName] else []
  {
    var w :=
      if o.structured then JsonWriter
      else
        var tf := if o.timeFormat == [] then DTGTimeFormat else o.timeFormat;
        var cw0 := ConsoleWriter(o.noColor || !terminal, tf, []);
        var cw1 := if o.hasConfigureWriter then configure(cw0) else cw0;
        Console(if o.disableTimestamp then cw1.(partsExclude := Unique(cw1.partsExclude, TimestampFieldName)) else cw1);
    var logger := NewLogger(w).(timestamp := !o.disableTimestamp);
    Adapter(if o.level.Some? then logger.(level := o.level.value) else logger, [], None)
  }

  // ---- Levels ----

  /** forceNoLevel: the forced level is NoLevel. */
  predicate ForceNoLevel(a: Adapter)
    ensures ForceNoLevel(a) ==> CurrentLevel(a) == NoLevel
  {
    a.forcedLevel == Some(NoLevel)
  }

  /** currentLevel: the forced level, else the logger's level read back
      into logport's terms. */
  function CurrentLevel(a: Adapter): (r: Level)
    ensures a.forcedLevel.Some? ==> r == a.forcedLevel.value
    ensures a.forcedLevel.None? ==> r == ZeroLevelToPort(a.logger.level)
  {
    match a.forcedLevel
    case Some(f) => f
    case None => ZeroLevelToPort(a.logger.level)
  }

  /** LogLevel: NoLevel is forced and the logger kept; any other level
      becomes the logger's level and the forced level is dropped. */
  function LogLevel(a: Adapter, level: Level): (r: Adapter)
    ensures level == NoLevel ==> r == a.(forcedLevel := Some(NoLevel))
    ensures level != NoLevel ==> r == a.(forcedLevel := None, logger := a.logger.(level := PortLevelToZero(level)))
  {
    if level == NoLevel then Adapter(a.logger, a.groups, Some(level))
    else Adapter(a.logger.(level := PortLevelToZero(level)), a.groups, None)
  }

  /** LogLevel then currentLevel gives back every named level; an unnamed
      one reads Info. */
  lemma CurrentLevelOfLogLevel(a: Adapter, level: Level)
    ensures IsNamed(level) ==> CurrentLevel(LogLevel(a, level)) == level
    ensures !IsNamed(level) ==> CurrentLevel(LogLevel(a, level)) == InfoLevel
  {
  }

  /** LogLevel forces the level-less mode for NoLevel and ends it for any
      other level. */
  lemma ForceNoLevelOfLogLevel(a: Adapter, level: Level)
    ensures ForceNoLevel(LogLevel(a, level)) <==> level == NoLevel
  {
  }

  function LogLevelFromEnv(a: Adapter, key: Bytes, lookup: Option<Bytes>): (r: Adapter)
    ensures !LevelFromEnv(key, lookup).1 ==> r == a
    ensures LevelFromEnv(key, lookup).1 ==> r == LogLevel(a, ParseLevel(lookup.value).0)
  {
    var (level, ok) := LevelFromEnv(key, lookup);
    if ok then LogLevel(a, level) else a
  }

  // ---- Builders ----

  /** The logger with a field map attached, unless the map is empty. */
  function Attach(a: Adapter, fields: map<Bytes, Value>): (r: Adapter)
    ensures fields == map[] ==> r == a
    ensures fields != map[] ==> r == a.(logger := a.logger.(context := a.logger.context + [fields]))
  {
    if fields == map[] then a else a.(logger := a.logger.(context := a.logger.context + [fields]))
  }

  /** With: the items are read without the adapter's groups; their map is
      attached to the logger's context when it is not empty. */
  method With(a: Adapter, keyvals: seq<Value>) returns (r: Adapter)
    ensures r == Attach(a, FieldMap(Fields(keyvals, [], 0, false)))
  {
    if |keyvals| == 0 {
      return a;
    }
    var fields := FieldsFromKeyvals(keyvals, []);
    r := Attach(a, fields.value);
  }

  /** With changes neither the level nor the groups. */
  lemma WithKeepsLevel(a: Adapter, keyvals: seq<Value>)
    ensures Attach(a, FieldMap(Fields(keyvals, [], 0, false))).groups == a.groups
    ensures CurrentLevel(Attach(a, FieldMap(Fields(keyvals, [], 0, false)))) == CurrentLevel(a)
  {
  }

  /** WithLogLevel: With("loglevel", the current level's name). */
  method WithLogLevel(a: Adapter) returns (r: Adapter)
    ensures r == a.(logger := a.logger.(context := a.logger.context + [map["loglevel" := Str(LevelString(CurrentLevel(a)))]]))
  {
    var kv := [Str("loglevel"), Str(LevelString(CurrentLevel(a)))];
    r := With(a, kv);
    assert kv[2..] == [];
    assert Fields(kv, [], 0, false) == [Field("loglevel", kv[1])];
    FieldMapSnoc([], Field("loglevel", kv[1]));
    assert [] + [Field("loglevel", kv[1])] == [Field("loglevel", kv[1])];
    assert "loglevel" in FieldMap(Fields(kv, [], 0, false));
  }

  /** WithGroup: an empty name changes nothing; otherwise it is appended. */
  function WithGroup(a: Adapter, name: Bytes): (r: Adapter)
    ensures name == [] ==> r == a
    ensures name != [] ==> r == a.(groups := a.groups + [name])
  {
    if name == [] then a else a.(groups := AppendGroup(a.groups, name))
  }

  /** WithAttrs: the attributes under the adapter's groups, attached as one
      map. */
  method WithAttrs(a: Adapter, attrs: seq<Attr>) returns (r: Adapter)
    ensures r == Attach(a, FieldMap(AttrsFields(attrs, a.groups)))
  {
    if |attrs| == 0 {
      return a;
    }
    var keyvals := Walk.AttrsToKeyvals(attrs, a.groups);
    var fields := FieldsFromKeyvals(keyvals, []);
    FieldsOfFlatten(AttrsFields(attrs, a.groups), 0, false);
    if fields.None? {
      return a;
    }
    r := Attach(a, fields.value);
  }

  // ---- Events ----

  /** The event a logging call asks zerolog for: its level (NoLevel for
      Log()), the message, the fields, and whether zerolog exits (Fatal) or
      panics (Panic) once it is written. */
  datatype Event = Event(level: ZeroLevel, msg: Bytes, fields: map<Bytes, Value>, exits: bool, panics: bool)

  /** The level of the event each method asks for: Fatal and Panic always
      their own; the others their own level, or Log() when NoLevel is
      forced. */
  function EventLevel(a: Adapter, level: Level): (r: ZeroLevel)
    requires TraceLevel <= level <= PanicLevel
    ensures level == FatalLevel ==> r == ZFatal
    ensures level == PanicLevel ==> r == ZPanic
    ensures level < FatalLevel ==> r == (if ForceNoLevel(a) then ZNoLevel else level)
  {
    if level == FatalLevel then ZFatal
    else if level == PanicLevel then ZPanic
    else if ForceNoLevel(a) then ZNoLevel
    else PortLevelToZero(level)
  }

  /** Trace, Debug, Info, Warn, Error, Fatal and Panic: the event, with the
      items' fields under the adapter's groups. */
  method Log(a: Adapter, level: Level, msg: Bytes, keyvals: seq<Value>) returns (e: Event)
    requires TraceLevel <= level <= PanicLevel
    ensures e.level == EventLevel(a, level) && e.msg == msg
    ensures e.fields == FieldMap(Fields(keyvals, a.groups, 0, false))
    ensures e.exits <==> level == FatalLevel
    ensures e.panics <==> level == PanicLevel
  {
    var fields: map<Bytes, Value> := map[];
    if |keyvals| > 0 {
      var m := FieldsFromKeyvals(keyvals, a.groups);
      fields := m.value;
    }
    e := Event(EventLevel(a, level), msg, fields, level == FatalLevel, level == PanicLevel);
  }

  /** A forced NoLevel turns every level below Fatal into Log(). */
  lemma ForcedNoLevelIsPlain(a: Adapter, level: Level)
    requires TraceLevel <= level <= ErrorLevel
    ensures EventLevel(LogLevel(a, NoLevel), level) == ZNoLevel
  {
  }

  /** Enabled: true when NoLevel is forced, else the record's translated
      level against the logger's. */
  function Enabled(a: Adapter, level: Int64): (r: bool)
    ensures ForceNoLevel(a) ==> r
    ensures !ForceNoLevel(a) ==> (r <==> SlogLevelToZero(level) >= a.logger.level)
  {
    ForceNoLevel(a) || SlogLevelToZero(level) >= a.logger.level
  }

  /** After LogLevel(m), m not NoLevel, a record is enabled iff its
      translated level is at least m's; LogLevel(Disabled) and
      LogLevel(Panic) enable no record. */
  lemma EnabledAfterLogLevel(a: Adapter, m: Level, level: Int64)
    requires m != NoLevel
    ensures Enabled(LogLevel(a, m), level) <==> SlogLevelToZero(level) >= PortLevelToZero(m)
    ensures m == Disabled || m == PanicLevel ==> !Enabled(LogLevel(a, m), level)
  {
  }

  /** Handle: the record's attributes under the adapter's groups, at the
      translated level (Log() when NoLevel is forced); zerolog neither exits
      nor panics for it. */
  method Handle(a: Adapter, level: Int64, msg: Bytes, attrs: seq<Attr>) returns (e: Event)
    ensures e.level == if ForceNoLevel(a) then ZNoLevel else SlogLevelToZero(level)
    ensures e.msg == msg && !e.exits && !e.panics
    ensures e.fields == FieldMap(AttrsFields(attrs, a.groups))
  {
    var lvl := if ForceNoLevel(a) then ZNoLevel else SlogLevelToZero(level);
    var keyvals := Walk.AttrsToKeyvals(attrs, a.groups);
    var fields: map<Bytes, Value> := map[];
    FieldsOfFlatten(AttrsFields(attrs, a.groups), 0, false);
    if |keyvals| > 0 {
      var m := FieldsFromKeyvals(keyvals, []);
      fields := m.value;
    }
    e := Event(lvl, msg, fields, false, false);
  }

  // ---- Options as JSON ----

  /** A JSON value as encoding/json reads it into optionsJSON; a zerolog
      level travels in zerolog's own text form. */
  datatype JsonValue = JBool(b: bool) | JString(s: Bytes) | JLevel(l: ZeroLevel) | JNull

  /** A JSON object: its members in order. */
  type JsonObject = seq<(Bytes, JsonValue)>

  /** optionsJSON: Options without ConfigureWriter. */
  datatype OptionsJson = OptionsJson(level: Option<ZeroLevel>, noColor: bool, timeFormat: Bytes, disableTimestamp: bool, structured: bool)

  /** MarshalJSON: the five fields under their JSON names, in declaration
      order, each left out when it is nil, false or empty. */
  function MarshalJson(o: Options): (r: JsonObject)
    ensures |r| <= 5
    ensures o.level.Some? ==> |r| > 0 && r[0] == ("level", JLevel(o.level.value))
  {
    Member(o.level.Some?, "level", if o.level.Some? then JLevel(o.level.value) else JNull)
    + Member(o.noColor, "noColor", JBool(true))
    + Member(o.timeFormat != [], "timeFormat", JString(o.timeFormat))
    + Member(o.disableTimestamp, "disableTimestamp", JBool(true))
    + Member(o.structured, "structured", JBool(true))
  }

  /** A member written only when its field is not empty (omitempty). */
  function Member(present: bool, name: Bytes, v: JsonValue): (r: JsonObject)
    ensures |r| <= 1
    ensures present <==> r == [(name, v)]
  {
    if present then [(name, v)] else []
  }

  /** Options with nothing set marshal to the empty object {}. */
  lemma MarshalZeroOptions(h: bool)
    ensures MarshalJson(Options(h, None, false, [], false, false)) == []
  {
  }

  /** One member read into optionsJSON, its name matched without regard
      to case as encoding/json does: a known name sets its field, null
      clears the level and leaves the others alone, a value of the wrong
      kind is an error, and an unknown name is skipped. */
  function DecodeMember(acc: OptionsJson, key: Bytes, v: JsonValue): Option<OptionsJson> {
    var name := ToLower(key);
    if name == "level" then
      match v
      case JLevel(l) => Some(acc.(level := Some(l)))
      case JNull => Some(acc.(level := None))
      case _ => None
    else if name == "nocolor" then
      match v
      case JBool(b) => Some(acc.(noColor := b))
      case JNull => Some(acc)
      case _ => None
    else if name == "timeformat" then
      match v
      case JString(s) => Some(acc.(timeFormat := s))
      case JNull => Some(acc)
      case _ => None
    else if name == "disabletimestamp" then
      match v
      case JBool(b) => Some(acc.(disableTimestamp := b))
      case JNull => Some(acc)
      case _ => None
    else if name == "structured" then
      match v
      case JBool(b) => Some(acc.(structured := b))
      case JNull => Some(acc)
      case _ => None
    else Some(acc)
  }

  /** json.Unmarshal into a fresh optionsJSON: the members in order, a
      later one winning. */
  function DecodeMembers(acc: OptionsJson, members: JsonObject): Option<OptionsJson>
    decreases |members|
  {
    if members == [] then Some(acc)
    else
      match DecodeMember(acc, members[0].0, members[0].1)
      case None => None
      case Some(next) => DecodeMembers(next, members[1..])
  }

  const ZeroOptionsJson := OptionsJson(None, false, [], false, false)

  /** The JSON text UnmarshalJSON is given: an object, the literal null,
      or anything else (an array, a number, a string, or text that is not
      JSON at all). */
  datatype JsonDoc = Object(members: JsonObject) | Null | Other

  /** UnmarshalJSON. json.Unmarshal reads null into a struct as a no-op, so
      optionsJSON keeps its zero value; anything but an object or null is
      an error. On an error the options are left as they were and the
      error is reported (the second component); otherwise the five fields
      are copied and ConfigureWriter is cleared. */
  function UnmarshalJson(o: Options, data: JsonDoc): (r: (Options, bool))
    ensures r.1 ==> r.0 == o
    ensures !r.1 ==> !r.0.hasConfigureWriter
    ensures data.Other? ==> r.1
    ensures data.Null? ==> !r.1
  {
    if data.Other? then (o, true)
    else
      var members := if data.Object? then data.members else [];
      match DecodeMembers(ZeroOptionsJson, members)
      case None => (o, true)
      case Some(aux) =>
        (Options(false, aux.level, aux.noColor, aux.timeFormat, aux.disableTimestamp, aux.structured), false)
  }

  /** A JSON null reads like the empty object: every field is reset to its
      zero value, which is what marshals back to {}. */
  lemma UnmarshalNull(before: Options)
    ensures UnmarshalJson(before, Null) == UnmarshalJson(before, Object([]))
    ensures UnmarshalJson(before, Null) == (Options(false, None, false, [], false, false), false)
    ensures MarshalJson(UnmarshalJson(before, Null).0) == []
  {
  }

  /** The JSON names lower-cased. */
  lemma LowerNames()
    ensures ToLower("level") == "level"
    ensures ToLower("noColor") == "nocolor"
    ensures ToLower("timeFormat") == "timeformat"
    ensures ToLower("disableTimestamp") == "disabletimestamp"
    ensures ToLower("structured") == "structured"
  {
  }

  lemma DecodeKnown(acc: OptionsJson, o: Options)
    ensures DecodeMembers(acc, Member(o.level.Some?, "level", if o.level.Some? then JLevel(o.level.value) else JNull))
      == Some(if o.level.Some? then acc.(level := o.level) else acc)
    ensures DecodeMembers(acc, Member(o.noColor, "noColor", JBool(true))) == Some(acc.(noColor := o.noColor || acc.noColor))
    ensures DecodeMembers(acc, Member(o.timeFormat != [], "timeFormat", JString(o.timeFormat)))
      == Some(if o.timeFormat != [] then acc.(timeFormat := o.timeFormat) else acc)
    ensures DecodeMembers(acc, Member(o.disableTimestamp, "disableTimestamp", JBool(true)))
      == Some(acc.(disableTimestamp := o.disableTimestamp || acc.disableTimestamp))
    ensures DecodeMembers(acc, Member(o.structured, "structured", JBool(true))) == Some(acc.(structured := o.structured || acc.structured))
  {
    LowerNames();
    assert [("level", JLevel(0))][1..] == [];
  }

  lemma DecodeMembersAppend(acc: OptionsJson, a: JsonObject, b: JsonObject, mid: OptionsJson)
    requires DecodeMembers(acc, a) == Some(mid)
    ensures DecodeMembers(acc, a + b) == DecodeMembers(mid, b)
    decreases |a|
  {
    if a == [] {
      assert a + b == b;
    } else {
      assert (a + b)[0] == a[0];
      assert (a + b)[1..] == a[1..] + b;
      DecodeMembersAppend(DecodeMember(acc, a[0].0, a[0].1).value, a[1..], b, mid);
    }
  }

  /** Marshalling and unmarshalling gives back the five fields, whatever
      the options held before, and clears ConfigureWriter. */
  lemma {:induction false} OptionsJsonRoundTrip(o: Options, before: Options)
    ensures UnmarshalJson(before, Object(MarshalJson(o))) == (o.(hasConfigureWriter := false), false)
  {
    var p1 := Member(o.level.Some?, "level", if o.level.Some? then JLevel(o.level.value) else JNull);
    var p2 := Member(o.noColor, "noColor", JBool(true));
    var p3 := Member(o.timeFormat != [], "timeFormat", JString(o.timeFormat));
    var p4 := Member(o.disableTimestamp, "disableTimestamp", JBool(true));
    var p5 := Member(o.structured, "structured", JBool(true));
    var s1 := ZeroOptionsJson.(level := o.level);
    var s2 := s1.(noColor := o.noColor);
    var s3 := s2.(timeFormat := o.timeFormat);
    var s4 := s3.(disableTimestamp := o.disableTimestamp);
    var s5 := s4.(structured := o.structured);
    DecodeKnown(ZeroOptionsJson, o);
    DecodeKnown(s1, o);
    DecodeKnown(s2, o);
    DecodeKnown(s3, o);
    DecodeKnown(s4, o);
    DecodeMembersAppend(ZeroOptionsJson, p1, p2, s1);
    DecodeMembersAppend(ZeroOptionsJson, p1 + p2, p3, s2);
    DecodeMembersAppend(ZeroOptionsJson, p1 + p2 + p3, p4, s3);
    DecodeMembersAppend(ZeroOptionsJson, p1 + p2 + p3 + p4, p5, s4);
  }

  /** Malformed input is an error and leaves the options untouched, here a
      string where a boolean belongs. */
  lemma UnmarshalWrongKind(before: Options)
    ensures UnmarshalJson(before, Object([("noColor", JString("yes"))])) == (before, true)
  {
    assert ToLower("noColor") == "nocolor";
    assert ToLower("level") == "level";
  }
}
