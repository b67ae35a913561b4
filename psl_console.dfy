/** The console line of the PSL adapter: an optional timestamp, a three
    letter level tag, the message and key=value fields, coloured on request. */
module PslConsole {
  import opened GoBytes
  import opened Levels
  import opened Keyvals
  import opened Ansi

  /** A byte that makes needsQuote quote a console value. */
  predicate QuoteWorthy(c: Byte) {
    c as int < 0x20 || c as int > 0x7e || c == ' ' || c == '\\' || c == '"'
  }

  predicate HasQuoteWorthy(s: Bytes) {
    exists i :: 0 <= i < |s| && QuoteWorthy(s[i])
  }

  /** needsQuote: a scan for a byte that forces quoting. */
  method NeedsQuote(s: Bytes) returns (r: bool)
    ensures r <==> HasQuoteWorthy(s)
  {
    for i := 0 to |s|
      invariant forall k :: 0 <= k < i ==> !QuoteWorthy(s[k])
    {
      var c := s[i];
      if c as int < 0x20 || c as int > 0x7e || c == ' ' || c == '\\' || c == '"' {
        return true;
      }
    }
    return false;
  }

  /** A string as the console shows it: quoted with strconv.Quote exactly
      when it holds a byte needsQuote looks for. */
  function QuoteIfNeeded(s: Bytes): Bytes {
    if HasQuoteWorthy(s) then Quote(s) else s
  }

  /** formatConsoleValue. Strings, Stringers and errors (slog.Attr among
      them) are quoted when needed; any other value is printed with
      fmt.Sprint. */
  function ConsoleValue(v: Value): Bytes {
    match v
    case Str(s) => QuoteIfNeeded(s)
    case Text(s) => QuoteIfNeeded(s)
    case AttrV(a) => QuoteIfNeeded(AttrText(a))
    case _ => Sprint(v)
  }

  method FormatConsoleValue(v: Value) returns (r: Bytes)
    ensures r == ConsoleValue(v)
  {
    var s: Bytes;
    match v {
      case Str(x) => s := x;
      case Text(x) => s := x;
      case AttrV(a) => s := AttrText(a);
      case _ => return Sprint(v);
    }
    var q := NeedsQuote(s);
    if q {
      r := Quote(s);
    } else {
      r := s;
    }
  }

  /** consoleLevel: the tag and its colour, if any. */
  function ConsoleLevel(level: Level): (r: (Bytes, Option<Piece>))
    ensures |r.0| == 3
  {
    match level
    case -1 => ("TRC", Some(Blue))
    case 0 => ("DBG", None)
    case 1 => ("INF", Some(Green))
    case 2 => ("WRN", Some(Yellow))
    case 3 => ("ERR", Some(Red))
    case 4 => ("FTL", Some(Red))
    case 5 => ("PNC", Some(Red))
    case 6 => ("---", None)
    case _ => ("INF", Some(Green))
  }

  /** shouldHighlight: the message is bold from Info up to Panic. */
  predicate ShouldHighlight(level: Level) {
    level == InfoLevel || level == WarnLevel || level == ErrorLevel || level == FatalLevel || level == PanicLevel
  }

  // ---- The line as pieces ----

  function TimePieces(timestamp: Bytes, includeTime: bool, color: bool): seq<Piece> {
    if !includeTime then []
    else if color then [Faint, Lit(timestamp), Reset, Lit(" ")]
    else [Lit(timestamp), Lit(" ")]
  }

  function LevelPieces(level: Level, color: bool): seq<Piece> {
    var (tag, colour) := ConsoleLevel(level);
    if color && colour.Some? then [colour.value, Lit(tag), Reset] else [Lit(tag)]
  }

  function MessagePieces(level: Level, msg: Bytes, color: bool): seq<Piece> {
    if msg == [] then []
    else if color && ShouldHighlight(level) then [Lit(" "), Bold, Lit(msg), Reset]
    else [Lit(" "), Lit(msg)]
  }

  function FieldPieces(f: Field, color: bool): seq<Piece> {
    if color then [Lit(" "), Cyan, Lit(f.key), Lit("="), Reset, Lit(ConsoleValue(f.value))]
    else [Lit(" "), Lit(f.key), Lit("="), Lit(ConsoleValue(f.value))]
  }

  function FieldsPieces(fields: seq<Field>, color: bool): seq<Piece>
    decreases |fields|
  {
    if fields == [] then [] else FieldPieces(fields[0], color) + FieldsPieces(fields[1..], color)
  }

  /** The whole console line writeConsole appends. */
  function ConsolePieces(level: Level, msg: Bytes, fields: seq<Field>, timestamp: Bytes, includeTime: bool, color: bool): seq<Piece> {
    TimePieces(timestamp, includeTime, color) + LevelPieces(level, color)
      + MessagePieces(level, msg, color) + FieldsPieces(fields, color)
  }

  // ---- writeConsole ----

  /** writeConsole: appends the line to buf part by part. */
  method WriteConsole(buf: Bytes, level: Level, msg: Bytes, fields: seq<Field>, timestamp: Bytes, includeTime: bool, color: bool)
    returns (out: Bytes)
    ensures out == buf + Render(ConsolePieces(level, msg, fields, timestamp, includeTime, color))
  {
    var t := WriteTimestamp(buf, timestamp, includeTime, color);
    var l := WriteLevelTag(t, level, color);
    var m := WriteMessage(l, level, msg, color);
    out := WriteFields(m, fields, color);
    var tp, lp := TimePieces(timestamp, includeTime, color), LevelPieces(level, color);
    var mp, fp := MessagePieces(level, msg, color), FieldsPieces(fields, color);
    RenderAppend(tp, lp);
    RenderAppend(tp + lp, mp);
    RenderAppend(tp + lp + mp, fp);
    Concat4(buf, Render(tp), Render(lp), Render(mp), Render(fp));
  }

  method WriteTimestamp(buf: Bytes, timestamp: Bytes, includeTime: bool, color: bool) returns (out: Bytes)
    ensures out == buf + Render(TimePieces(timestamp, includeTime, color))
  {
    var part: Bytes := [];
    if includeTime {
      if color {
        part := SgrBytes(Faint.params) + timestamp + SgrBytes(Reset.params) + [' '];
      } else {
        part := timestamp + [' '];
      }
    }
    RenderTime(timestamp, includeTime, color);
    out := buf + part;
  }

  method WriteLevelTag(buf: Bytes, level: Level, color: bool) returns (out: Bytes)
    ensures out == buf + Render(LevelPieces(level, color))
  {
    var (tag, colour) := ConsoleLevel(level);
    var part: Bytes;
    if color && colour.Some? {
      part := SgrBytes(colour.value.params) + tag + SgrBytes(Reset.params);
    } else {
      part := tag;
    }
    RenderLevel(level, color);
    out := buf + part;
  }

  method WriteMessage(buf: Bytes, level: Level, msg: Bytes, color: bool) returns (out: Bytes)
    ensures out == buf + Render(MessagePieces(level, msg, color))
  {
    var part: Bytes := [];
    if msg != [] {
      if color && ShouldHighlight(level) {
        part := [' '] + SgrBytes(Bold.params) + msg + SgrBytes(Reset.params);
      } else {
        part := [' '] + msg;
      }
    }
    RenderMessage(level, msg, color);
    out := buf + part;
  }

  /** The loop over the fields: a space, the key and '=', then the value. */
  method WriteFields(buf: Bytes, fields: seq<Field>, color: bool) returns (out: Bytes)
    ensures out == buf + Render(FieldsPieces(fields, color))
  {
    out := buf;
    assert FieldsPieces(fields[..0], color) == [];
    for i := 0 to |fields|
      invariant out == buf + Render(FieldsPieces(fields[..i], color))
    {
      ghost var before := out;
      out := WriteField(out, fields[i], color);
      FieldsPiecesSnoc(fields, i, color);
      Extend(buf, FieldsPieces(fields[..i], color), FieldPieces(fields[i], color), before, out);
    }
    assert fields[..|fields|] == fields;
  }

  method WriteField(buf: Bytes, f: Field, color: bool) returns (out: Bytes)
    ensures out == buf + Render(FieldPieces(f, color))
  {
    var value := FormatConsoleValue(f.value);
    var part: Bytes;
    if color {
      part := [' '] + SgrBytes(Cyan.params) + f.key + ['='] + SgrBytes(Reset.params) + value;
    } else {
      part := [' '] + f.key + ['='] + value;
    }
    RenderField(f, color);
    out := buf + part;
  }

  lemma Concat4(a: Bytes, b: Bytes, c: Bytes, d: Bytes, e: Bytes)
    ensures a + (b + c + d + e) == a + b + c + d + e
  {
  }

  // ---- Rendering the parts ----

  lemma RenderTime(timestamp: Bytes, includeTime: bool, color: bool)
    ensures Render(TimePieces(timestamp, includeTime, color))
      == if !includeTime then []
         else if color then SgrBytes(Faint.params) + timestamp + SgrBytes(Reset.params) + [' ']
         else timestamp + [' ']
  {
    if includeTime {
      if color {
        RenderOf4(Faint, Lit(timestamp), Reset, Lit(" "));
      } else {
        RenderOf2(Lit(timestamp), Lit(" "));
      }
    }
  }

  lemma RenderLevel(level: Level, color: bool)
    ensures var (tag, colour) := ConsoleLevel(level);
      Render(LevelPieces(level, color))
        == if color && colour.Some? then SgrBytes(colour.value.params) + tag + SgrBytes(Reset.params) else tag
  {
    var (tag, colour) := ConsoleLevel(level);
    if color && colour.Some? {
      RenderOf3(colour.value, Lit(tag), Reset);
    } else {
      RenderOf1(Lit(tag));
    }
  }

  lemma RenderMessage(level: Level, msg: Bytes, color: bool)
    ensures Render(MessagePieces(level, msg, color))
      == if msg == [] then []
         else if color && ShouldHighlight(level) then [' '] + SgrBytes(Bold.params) + msg + SgrBytes(Reset.params)
         else [' '] + msg
  {
    if msg != [] {
      if color && ShouldHighlight(level) {
        RenderOf4(Lit(" "), Bold, Lit(msg), Reset);
      } else {
        RenderOf2(Lit(" "), Lit(msg));
      }
    }
  }

  lemma RenderField(f: Field, color: bool)
    ensures Render(FieldPieces(f, color))
      == if color then [' '] + SgrBytes(Cyan.params) + f.key + ['='] + SgrBytes(Reset.params) + ConsoleValue(f.value)
         else [' '] + f.key + ['='] + ConsoleValue(f.value)
  {
    var v := Lit(ConsoleValue(f.value));
    if color {
      RenderOf3(Lit(" "), Cyan, Lit(f.key));
      RenderOf3(Lit("="), Reset, v);
      RenderAppend([Lit(" "), Cyan, Lit(f.key)], [Lit("="), Reset, v]);
      assert FieldPieces(f, color) == [Lit(" "), Cyan, Lit(f.key)] + [Lit("="), Reset, v];
    } else {
      RenderOf4(Lit(" "), Lit(f.key), Lit("="), v);
    }
  }

  lemma FieldsPiecesSnoc(fields: seq<Field>, i: nat, color: bool)
    requires i < |fields|
    ensures FieldsPieces(fields[..i + 1], color) == FieldsPieces(fields[..i], color) + FieldPieces(fields[i], color)
  {
    FieldsPiecesAppend(fields[..i], [fields[i]], color);
    assert fields[..i] + [fields[i]] == fields[..i + 1];
    assert FieldsPieces([fields[i]], color) == FieldPieces(fields[i], color) + FieldsPieces([], color);
  }

  lemma {:induction false} FieldsPiecesAppend(a: seq<Field>, b: seq<Field>, color: bool)
    ensures FieldsPieces(a + b, color) == FieldsPieces(a, color) + FieldsPieces(b, color)
    decreases |a|
  {
    if a == [] {
      assert a + b == b;
    } else {
      assert (a + b)[1..] == a[1..] + b;
      FieldsPiecesAppend(a[1..], b, color);
    }
  }

  // ---- Properties ----

  /** The named levels get different tags, told apart by their first
      byte, except Disabled, which has no case and reads as Info; only
      Debug and NoLevel have no colour. */
  lemma ConsoleLevelTags(l: Level, m: Level)
    requires IsNamed(l) && IsNamed(m) && l != m && l != Disabled && m != Disabled
    ensures ConsoleLevel(l).0[0] != ConsoleLevel(m).0[0]
    ensures ConsoleLevel(l).1 == None <==> l == DebugLevel || l == NoLevel
  {
    TagInitial(l);
    TagInitial(m);
  }

  /** The first bytes of the tags TRC, DBG, INF, WRN, ERR, FTL, PNC, ---
      and "disabled", which reads as INF. */
  lemma TagInitial(l: Level)
    requires IsNamed(l)
    ensures l == TraceLevel ==> ConsoleLevel(l).0[0] == 'T'
    ensures l == DebugLevel ==> ConsoleLevel(l).0[0] == 'D'
    ensures l == InfoLevel || l == Disabled ==> ConsoleLevel(l).0[0] == 'I'
    ensures l == WarnLevel ==> ConsoleLevel(l).0[0] == 'W'
    ensures l == ErrorLevel ==> ConsoleLevel(l).0[0] == 'E'
    ensures l == FatalLevel ==> ConsoleLevel(l).0[0] == 'F'
    ensures l == PanicLevel ==> ConsoleLevel(l).0[0] == 'P'
    ensures l == NoLevel ==> ConsoleLevel(l).0[0] == '-'
  {
  }

  /** Without colour the line is literal text only: no SGR sequence is
      written. */
  lemma NoColourNoSgr(level: Level, msg: Bytes, fields: seq<Field>, timestamp: Bytes, includeTime: bool)
    ensures NoSgr(ConsolePieces(level, msg, fields, timestamp, includeTime, false))
    ensures Render(ConsolePieces(level, msg, fields, timestamp, includeTime, false))
      == Stripped(ConsolePieces(level, msg, fields, timestamp, includeTime, false))
  {
    var ps := ConsolePieces(level, msg, fields, timestamp, includeTime, false);
    FieldsNoSgr(fields);
    var a, b, c, d := TimePieces(timestamp, includeTime, false), LevelPieces(level, false),
      MessagePieces(level, msg, false), FieldsPieces(fields, false);
    assert NoSgr(a) && NoSgr(b) && NoSgr(c) && NoSgr(d);
    assert NoSgr(ps) by {
      forall k | 0 <= k < |ps| ensures ps[k].Lit? {
        if k < |a| { assert ps[k] == a[k]; }
        else if k < |a + b| { assert ps[k] == b[k - |a|]; }
        else if k < |a + b + c| { assert ps[k] == c[k - |a + b|]; }
        else { assert ps[k] == d[k - |a + b + c|]; }
      }
    }
    RenderOfNoSgr(ps);
  }

  lemma {:induction false} FieldsNoSgr(fields: seq<Field>)
    ensures NoSgr(FieldsPieces(fields, false))
    decreases |fields|
  {
    if fields != [] {
      FieldsNoSgr(fields[1..]);
      var a, b := FieldPieces(fields[0], false), FieldsPieces(fields[1..], false);
      assert FieldsPieces(fields, false) == a + b;
      assert forall k :: |a| <= k < |a + b| ==> (a + b)[k] == b[k - |a|];
    }
  }

  /** Colour only adds SGR sequences: the literal text of the coloured line
      is the line without colour. */
  lemma ColourOnlyAddsSgr(level: Level, msg: Bytes, fields: seq<Field>, timestamp: Bytes, includeTime: bool)
    ensures Stripped(ConsolePieces(level, msg, fields, timestamp, includeTime, true))
      == Render(ConsolePieces(level, msg, fields, timestamp, includeTime, false))
  {
    NoColourNoSgr(level, msg, fields, timestamp, includeTime);
    var a, b, c, d := TimePieces(timestamp, includeTime, true), LevelPieces(level, true),
      MessagePieces(level, msg, true), FieldsPieces(fields, true);
    var a', b', c', d' := TimePieces(timestamp, includeTime, false), LevelPieces(level, false),
      MessagePieces(level, msg, false), FieldsPieces(fields, false);
    StrippedAppend(a, b);
    StrippedAppend(a + b, c);
    StrippedAppend(a + b + c, d);
    StrippedAppend(a', b');
    StrippedAppend(a' + b', c');
    StrippedAppend(a' + b' + c', d');
    PartsStripped(level, msg, timestamp, includeTime);
    FieldsStripped(fields);
  }

  lemma PartsStripped(level: Level, msg: Bytes, timestamp: Bytes, includeTime: bool)
    ensures Stripped(TimePieces(timestamp, includeTime, true)) == Stripped(TimePieces(timestamp, includeTime, false))
    ensures Stripped(LevelPieces(level, true)) == Stripped(LevelPieces(level, false))
    ensures Stripped(MessagePieces(level, msg, true)) == Stripped(MessagePieces(level, msg, false))
  {
    if includeTime {
      DropTwo(Faint, Lit(timestamp), Reset, Lit(" "));
    }
    var tag, colour := ConsoleLevel(level).0, ConsoleLevel(level).1;
    if colour.Some? {
      DropFirst(colour.value, Lit(tag), Reset);
    }
    if msg != [] && ShouldHighlight(level) {
      DropTwo(Bold, Lit(" ") , Reset, Lit(msg));
      assert Stripped([Lit(" "), Bold, Lit(msg), Reset]) == Stripped([Lit(" "), Lit(msg)]) by {
        assert [Lit(" "), Bold, Lit(msg), Reset] == [Lit(" ")] + [Bold] + [Lit(msg), Reset];
        DropSgr([Lit(" ")], Bold, [Lit(msg), Reset]);
        assert [Lit(" ")] + [Lit(msg), Reset] == [Lit(" "), Lit(msg)] + [Reset] + [];
        DropSgr([Lit(" "), Lit(msg)], Reset, []);
      }
    }
  }

  lemma FieldStripped(f: Field)
    ensures Stripped(FieldPieces(f, true)) == Stripped(FieldPieces(f, false))
  {
    var sp, k, eq, v := Lit(" "), Lit(f.key), Lit("="), Lit(ConsoleValue(f.value));
    assert FieldPieces(f, true) == [sp] + [Cyan] + [k, eq, Reset, v];
    DropSgr([sp], Cyan, [k, eq, Reset, v]);
    assert [sp] + [k, eq, Reset, v] == [sp, k, eq] + [Reset] + [v];
    DropSgr([sp, k, eq], Reset, [v]);
    assert [sp, k, eq] + [v] == FieldPieces(f, false);
  }

  lemma {:induction false} FieldsStripped(fields: seq<Field>)
    ensures Stripped(FieldsPieces(fields, true)) == Stripped(FieldsPieces(fields, false))
    decreases |fields|
  {
    if fields != [] {
      FieldsStripped(fields[1..]);
      FieldStripped(fields[0]);
      StrippedAppend(FieldPieces(fields[0], true), FieldsPieces(fields[1..], true));
      StrippedAppend(FieldPieces(fields[0], false), FieldsPieces(fields[1..], false));
    }
  }

  /** A string, Stringer or error value is one token of the console line:
      either it is written bare and holds no space, quote, backslash or
      control byte, or it is a Go string literal; either way it holds no
      control byte, so a value cannot inject ESC or a line break. */
  lemma StringValueIsToken(v: Value)
    requires v.Str? || v.Text? || v.AttrV?
    ensures var r := ConsoleValue(v);
      (forall k :: 0 <= k < |r| ==> !QuoteWorthy(r[k]))
      || (|r| >= 2 && r[0] == '"' && r[|r| - 1] == '"')
    ensures var r := ConsoleValue(v); forall k :: 0 <= k < |r| ==> !Control(r[k])
  {
    var s := if v.AttrV? then AttrText(v.attr) else v.s;
    assert ConsoleValue(v) == QuoteIfNeeded(s);
    if HasQuoteWorthy(s) {
      QuoteHasNoControl(s);
    }
  }

  /** The line of the adapter's own example, without timestamp and colour. */
  lemma ConsoleExample()
    ensures Render(ConsolePieces(InfoLevel, "ready",
      [Field("foo", Str("bar")), Field("greeting", Str("hello world"))], [], false, false))
      == "INF ready foo=bar greeting=\"hello world\""
  {
    var foo, greeting := Field("foo", Str("bar")), Field("greeting", Str("hello world"));
    var head := [Lit("INF"), Lit(" "), Lit("ready")];
    ExamplePieces(head, foo, greeting);
    var a, b := FieldPieces(foo, false), FieldPieces(greeting, false);
    RenderAppend(head, a);
    RenderAppend(head + a, b);
    RenderOf3(Lit("INF"), Lit(" "), Lit("ready"));
    ExampleFields(foo, greeting);
    ExampleBytes();
  }

  lemma ExamplePieces(head: seq<Piece>, foo: Field, greeting: Field)
    requires head == [Lit("INF"), Lit(" "), Lit("ready")]
    ensures ConsolePieces(InfoLevel, "ready", [foo, greeting], [], false, false)
      == head + FieldPieces(foo, false) + FieldPieces(greeting, false)
  {
    assert FieldsPieces([greeting], false) == FieldPieces(greeting, false) + FieldsPieces([], false);
    assert FieldsPieces([foo, greeting], false) == FieldPieces(foo, false) + FieldsPieces([greeting], false);
  }

  lemma ExampleFields(foo: Field, greeting: Field)
    requires foo == Field("foo", Str("bar")) && greeting == Field("greeting", Str("hello world"))
    ensures Render(FieldPieces(foo, false)) == [' '] + "foo" + ['='] + "bar"
    ensures Render(FieldPieces(greeting, false)) == [' '] + "greeting" + ['='] + "\"hello world\""
  {
    RenderField(foo, false);
    RenderField(greeting, false);
    BareExample();
    QuotedExample();
  }

  lemma ExampleBytes()
    ensures "INF" + " " + "ready" + ([' '] + "foo" + ['='] + "bar")
      + ([' '] + "greeting" + ['='] + "\"hello world\"") == "INF ready foo=bar greeting=\"hello world\""
  {
  }

  lemma BareExample()
    ensures ConsoleValue(Str("bar")) == "bar"
  {
    assert !HasQuoteWorthy("bar");
  }

  lemma QuotedExample()
    ensures ConsoleValue(Str("hello world")) == "\"hello world\""
  {
    NeedsQuoteExample();
    QuoteExample();
  }

  lemma NeedsQuoteExample()
    ensures HasQuoteWorthy("hello world")
  {
    var s: Bytes := "hello world";
    assert QuoteWorthy(s[5]);
  }

  lemma QuoteExample()
    ensures Quote("hello world") == "\"hello world\""
  {
    QuotePrintableExample();
    WrapExample();
  }

  lemma QuotePrintableExample()
    ensures Quote("hello world") == ['"'] + "hello world" + ['"']
  {
    var s: Bytes := "hello world";
    QuotePrintable(s);
  }

  lemma WrapExample()
    ensures ['"'] + "hello world" + ['"'] == "\"hello world\""
  {
  }
}
