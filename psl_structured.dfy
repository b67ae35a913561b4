/** The JSON line of the PSL adapter (writeStructured): one flat object with
    the time, the level, the message and the fields as members, coloured
    with SGR sequences on request, and a fast path for a line without
    colour and without fields. */
module PslStructured {
  import opened GoBytes
  import opened Levels
  import opened Keyvals
  import opened Ansi
  import Json
  import PslConsole

  /** fieldNames: the keys of the three fixed members, and the bytes the
      fast path writes in front of each of their values. */
  datatype FieldNames = FieldNames(time: Bytes, level: Bytes, message: Bytes,
                                   timePrefix: Bytes, levelPrefix: Bytes, messagePrefix: Bytes)

  const ShortNames: FieldNames :=
    FieldNames("ts", "lvl", "msg", "\"ts\":\"", "\"lvl\":\"", "\"msg\":\"")
  const VerboseNames: FieldNames :=
    FieldNames("time", "level", "message", "\"time\":\"", "\"level\":\"", "\"message\":\"")

  /** What opens a member whose value is a string: the key as a JSON
      string, a colon and the opening quote of the value. */
  function MemberOpening(key: Bytes): Bytes {
    Json.Quoted(key) + [':', '"']
  }

  predicate PrefixesFit(names: FieldNames) {
    && names.timePrefix == MemberOpening(names.time)
    && names.levelPrefix == MemberOpening(names.level)
    && names.messagePrefix == MemberOpening(names.message)
  }

  predicate AllPlain(s: Bytes) { forall k :: 0 <= k < |s| ==> Json.Plain(s[k]) }

  // ---- The general path, as pieces ----

  /** writeJSONString: the JSON string, then a reset when coloured, with
      green in front unless dimmed (every caller dims). */
  function StringPieces(s: Bytes, color: bool, dim: bool): seq<Piece> {
    if !color then [Lit(Json.Quoted(s))]
    else if dim then [Lit(Json.Quoted(s)), Reset]
    else [Green, Lit(Json.Quoted(s)), Reset]
  }

  /** text in a colour closed by a reset, or the bare text. */
  function Tinted(colour: Piece, text: Bytes, color: bool): seq<Piece> {
    if color then [colour, Lit(text), Reset] else [Lit(text)]
  }

  function BoolText(b: bool): Bytes { if b then "true" else "false" }

  /** A value encoded by other code: raw JSON (writeJSONRaw) or the error
      that stopped the encoding, as a string. */
  function RenderingPieces(r: Rendering, color: bool): seq<Piece> {
    match r
    case RawJson(b) => Tinted(Magenta, b, color)
    case ErrorText(t) => StringPieces(t, color, true)
  }

  /** writeJSONValue and writeJSONValuePlain. Strings, Stringers and errors
      (slog.Attr among them) and []byte become JSON strings; booleans,
      integers and nil are bare tokens; anything else is what its encoder
      gives. */
  function ValuePieces(v: Value, color: bool): seq<Piece> {
    match v
    case Str(s) => StringPieces(s, color, true)
    case Text(s) => StringPieces(s, color, true)
    case AttrV(a) => StringPieces(AttrText(a), color, true)
    case Bool(b) => Tinted(Yellow, BoolText(b), color)
    case Nil => Tinted(Faint, "null", color)
    case Int(i) => Tinted(Magenta, Decimal(i), color)
    case Uint(u) => Tinted(Magenta, Decimal(u), color)
    case ByteSlice(bs) => StringPieces(bs, color, true)
    case Foreign(_, r) => RenderingPieces(r, color)
    case AttrList(_, r) => RenderingPieces(r, color)
  }

  /** The colour writeJSONLevelValue gives a level. */
  function LevelColour(level: Level): Piece {
    if level == InfoLevel then BrightGreen
    else if level == WarnLevel then BrightYellow
    else if level == ErrorLevel || level == FatalLevel || level == PanicLevel then BrightRed
    else if level == TraceLevel then Blue
    else Faint
  }

  /** writeJSONLevelValue: the level's name (structuredLevel, the same table
      as LevelString) quoted with strconv.Quote. */
  function LevelValuePieces(level: Level, color: bool): seq<Piece> {
    Tinted(LevelColour(level), Quote(LevelString(level)), color)
  }

  /** writeJSONMessageValue. */
  function MessageValuePieces(msg: Bytes, color: bool): seq<Piece> {
    Tinted(Bold, Json.Quoted(msg), color)
  }

  /** writeJSONKey. */
  function KeyPieces(key: Bytes, color: bool): seq<Piece> {
    Tinted(Cyan, Json.Quoted(key), color)
  }

  /** jsonValueKind with the value writePair is given. */
  datatype Kind = LevelKind | MessageKind(msg: Bytes) | DefaultKind(value: Value)

  datatype Member = Member(key: Bytes, kind: Kind)

  function KindPieces(kind: Kind, level: Level, color: bool): seq<Piece> {
    match kind
    case LevelKind => LevelValuePieces(level, color)
    case MessageKind(msg) => MessageValuePieces(msg, color)
    case DefaultKind(v) => ValuePieces(v, color)
  }

  /** writePair: a comma unless first, the key, a colon and the value. */
  function MemberPieces(m: Member, level: Level, first: bool, color: bool): seq<Piece> {
    (if first then [] else [Lit(",")]) + KeyPieces(m.key, color) + [Lit(":")] + KindPieces(m.kind, level, color)
  }

  function MembersPieces(ms: seq<Member>, level: Level, first: bool, color: bool): seq<Piece>
    decreases |ms|
  {
    if ms == [] then [] else MemberPieces(ms[0], level, first, color) + MembersPieces(ms[1..], level, false, color)
  }

  function FieldMembers(fields: seq<Field>): (r: seq<Member>)
    ensures |r| == |fields|
    ensures forall k :: 0 <= k < |fields| ==> r[k] == Member(fields[k].key, DefaultKind(fields[k].value))
  {
    seq(|fields|, k requires 0 <= k < |fields| => Member(fields[k].key, DefaultKind(fields[k].value)))
  }

  /** The members every line has, in the order writeStructured writes
      them: the time when included, the level, the message unless empty. */
  function FixedMembers(msg: Bytes, timestamp: Bytes, includeTime: bool, names: FieldNames): (r: seq<Member>)
    ensures r != []
  {
    (if includeTime then [Member(names.time, DefaultKind(Str(timestamp)))] else [])
      + [Member(names.level, LevelKind)]
      + (if msg != [] then [Member(names.message, MessageKind(msg))] else [])
  }

  /** The members of a line: the fixed ones, then the fields. */
  function Members(msg: Bytes, fields: seq<Field>, timestamp: Bytes, includeTime: bool, names: FieldNames): seq<Member> {
    FixedMembers(msg, timestamp, includeTime, names) + FieldMembers(fields)
  }

  function GeneralPieces(level: Level, msg: Bytes, fields: seq<Field>, timestamp: Bytes, includeTime: bool,
                         names: FieldNames, color: bool): seq<Piece> {
    [Lit("{")] + MembersPieces(Members(msg, fields, timestamp, includeTime, names), level, true, color) + [Lit("}")]
  }

  // ---- The fast path ----

  /** appendFastStringField: the prefix, the value as it is and a quote. */
  function FastField(prefix: Bytes, value: Bytes, first: bool): Bytes {
    (if first then [] else [',']) + prefix + value + ['"']
  }

  /** appendQuotedField: key and value both escaped. */
  function QuotedField(key: Bytes, value: Bytes, first: bool): Bytes {
    (if first then [] else [',']) + Json.Quoted(key) + [':'] + Json.Quoted(value)
  }

  /** The message member of the fast path: escaped when needsQuote says so,
      otherwise copied. */
  function FastMessage(msg: Bytes, names: FieldNames): Bytes {
    if msg == [] then []
    else if PslConsole.HasQuoteWorthy(msg) then QuotedField(names.message, msg, false)
    else FastField(names.messagePrefix, msg, false)
  }

  function FastTime(timestamp: Bytes, includeTime: bool, names: FieldNames): Bytes {
    if includeTime then FastField(names.timePrefix, timestamp, true) else []
  }

  function FastLine(level: Level, msg: Bytes, timestamp: Bytes, includeTime: bool, names: FieldNames): Bytes {
    ['{'] + FastTime(timestamp, includeTime, names)
      + FastField(names.levelPrefix, LevelString(level), !includeTime) + FastMessage(msg, names) + ['}']
  }

  /** The line writeStructured appends: coloured when both JSON colour and
      colour are on; the fast path when uncoloured and without fields. */
  function StructuredLine(level: Level, msg: Bytes, fields: seq<Field>, timestamp: Bytes, includeTime: bool,
                          names: FieldNames, colorJSON: bool, colorEnabled: bool): Bytes {
    var colored := colorJSON && colorEnabled;
    if !colored && fields == [] then FastLine(level, msg, timestamp, includeTime, names)
    else Render(GeneralPieces(level, msg, fields, timestamp, includeTime, names, colored))
  }

  // ---- writeStructured ----

  method WriteStructured(buf: Bytes, level: Level, msg: Bytes, fields: seq<Field>, timestamp: Bytes, includeTime: bool,
                         names: FieldNames, colorJSON: bool, colorEnabled: bool) returns (out: Bytes)
    ensures out == buf + StructuredLine(level, msg, fields, timestamp, includeTime, names, colorJSON, colorEnabled)
  {
    var colored := colorJSON && colorEnabled;
    if !colored && |fields| == 0 {
      out := WriteFast(buf, level, msg, timestamp, includeTime, names);
    } else {
      out := WriteGeneral(buf, level, msg, fields, timestamp, includeTime, names, colored);
    }
  }

  method WriteFast(buf: Bytes, level: Level, msg: Bytes, timestamp: Bytes, includeTime: bool, names: FieldNames)
    returns (out: Bytes)
    ensures out == buf + FastLine(level, msg, timestamp, includeTime, names)
  {
    out := buf + ['{'];
    ghost var o0 := out;
    var first := true;
    if includeTime {
      out, first := AppendFastStringField(out, names.timePrefix, timestamp, first);
    }
    ghost var o1 := out;
    out, first := AppendFastStringField(out, names.levelPrefix, LevelString(level), first);
    ghost var o2 := out;
    if msg != [] {
      var q := PslConsole.NeedsQuote(msg);
      if q {
        out, first := AppendQuotedField(out, names.message, msg, first);
      } else {
        out, first := AppendFastStringField(out, names.messagePrefix, msg, first);
      }
    }
    ghost var o3 := out;
    out := out + ['}'];
    Chain5(buf, ['{'], FastTime(timestamp, includeTime, names), FastField(names.levelPrefix, LevelString(level), !includeTime),
           FastMessage(msg, names), ['}'], o0, o1, o2, o3, out);
  }

  /** Five appends in a row append their concatenation. */
  lemma Chain5(buf: Bytes, a: Bytes, b: Bytes, c: Bytes, d: Bytes, e: Bytes,
               o0: Bytes, o1: Bytes, o2: Bytes, o3: Bytes, out: Bytes)
    requires o0 == buf + a && o1 == o0 + b && o2 == o1 + c && o3 == o2 + d && out == o3 + e
    ensures out == buf + (a + b + c + d + e)
  {
  }

  method AppendFastStringField(buf: Bytes, prefix: Bytes, value: Bytes, first: bool) returns (out: Bytes, first': bool)
    ensures out == buf + FastField(prefix, value, first) && !first'
  {
    var part := prefix + value + ['"'];
    if !first {
      part := [','] + part;
    }
    out := buf + part;
    first' := false;
  }

  method AppendQuotedField(buf: Bytes, key: Bytes, value: Bytes, first: bool) returns (out: Bytes, first': bool)
    ensures out == buf + QuotedField(key, value, first) && !first'
  {
    var sep: Bytes := if first then [] else [','];
    var k := Json.AppendJSONString(sep, key);
    var part := Json.AppendJSONString(k + [':'], value);
    out := buf + part;
    first' := false;
  }

  method WriteGeneral(buf: Bytes, level: Level, msg: Bytes, fields: seq<Field>, timestamp: Bytes, includeTime: bool,
                      names: FieldNames, color: bool) returns (out: Bytes)
    ensures out == buf + Render(GeneralPieces(level, msg, fields, timestamp, includeTime, names, color))
  {
    out := buf + ['{'];
    ghost var head := out;
    out := WriteFixedMembers(out, level, msg, timestamp, includeTime, names, color);
    out := WriteFieldMembers(out, head, FixedMembers(msg, timestamp, includeTime, names), fields, level, color);
    ghost var body := Render(MembersPieces(Members(msg, fields, timestamp, includeTime, names), level, true, color));
    out := out + ['}'];
    RenderGeneral(level, msg, fields, timestamp, includeTime, names, color);
    Concat3(buf, ['{'], body);
  }

  /** The time, level and message members. */
  method WriteFixedMembers(buf: Bytes, level: Level, msg: Bytes, timestamp: Bytes, includeTime: bool,
                           names: FieldNames, color: bool) returns (out: Bytes)
    ensures out == buf + Render(MembersPieces(FixedMembers(msg, timestamp, includeTime, names), level, true, color))
  {
    out := buf;
    assert buf == buf + Render(MembersPieces([], level, true, color));
    var first := true;
    ghost var done: seq<Member> := [];
    if includeTime {
      var m := Member(names.time, DefaultKind(Str(timestamp)));
      out := WritePairAfter(out, buf, done, m, level, first, color);
      done, first := done + [m], false;
    }
    var lm := Member(names.level, LevelKind);
    out := WritePairAfter(out, buf, done, lm, level, first, color);
    done, first := done + [lm], false;
    if msg != [] {
      var m := Member(names.message, MessageKind(msg));
      out := WritePairAfter(out, buf, done, m, level, first, color);
      done := done + [m];
    }
    assert done == FixedMembers(msg, timestamp, includeTime, names);
  }

  /** The loop over the fields, after the fixed members. */
  method WriteFieldMembers(buf: Bytes, ghost head: Bytes, ghost done: seq<Member>, fields: seq<Field>, level: Level, color: bool)
    returns (out: Bytes)
    requires buf == head + Render(MembersPieces(done, level, true, color))
    requires done != []
    ensures out == head + Render(MembersPieces(done + FieldMembers(fields), level, true, color))
  {
    out := buf;
    ghost var written := done;
    FieldMembersSnoc(done, fields, 0);
    for i := 0 to |fields|
      invariant written == done + FieldMembers(fields[..i]) && written != []
      invariant out == head + Render(MembersPieces(written, level, true, color))
    {
      var m := Member(fields[i].key, DefaultKind(fields[i].value));
      out := WritePairAfter(out, head, written, m, level, false, color);
      FieldMembersSnoc(done, fields, i + 1);
      written := written + [m];
    }
    assert fields[..|fields|] == fields;
  }

  lemma FieldMembersSnoc(done: seq<Member>, fields: seq<Field>, i: nat)
    requires i <= |fields|
    ensures i == 0 ==> done + FieldMembers(fields[..i]) == done
    ensures i > 0 ==> (done + FieldMembers(fields[..i])
      == done + FieldMembers(fields[..i - 1]) + [Member(fields[i - 1].key, DefaultKind(fields[i - 1].value))])
  {
    if i == 0 {
      assert FieldMembers(fields[..i]) == [];
    } else {
      var a, b := FieldMembers(fields[..i]), FieldMembers(fields[..i - 1]);
      assert a == b + [Member(fields[i - 1].key, DefaultKind(fields[i - 1].value))];
    }
  }

  /** One writePair call, in terms of the members written before it. */
  method WritePairAfter(buf: Bytes, ghost head: Bytes, ghost done: seq<Member>, m: Member, level: Level, first: bool, color: bool)
    returns (out: Bytes)
    requires buf == head + Render(MembersPieces(done, level, true, color))
    requires first == (done == [])
    ensures out == head + Render(MembersPieces(done + [m], level, true, color))
  {
    out := WritePair(buf, m.key, m.kind, level, first, color);
    MembersSnoc(done, m, level, true, color);
    Extend(head, MembersPieces(done, level, true, color), MemberPieces(m, level, first, color), buf, out);
  }

  /** writePair. */
  method WritePair(buf: Bytes, key: Bytes, kind: Kind, level: Level, first: bool, color: bool) returns (out: Bytes)
    ensures out == buf + Render(MemberPieces(Member(key, kind), level, first, color))
  {
    ghost var sep: seq<Piece> := if first then [] else [Lit(",")];
    var o1 := buf;
    if !first {
      o1 := buf + [','];
    }
    RenderOf1(Lit(","));
    assert o1 == buf + Render(sep);
    var o2 := WriteJSONKey(o1, key, color);
    Extend(buf, sep, KeyPieces(key, color), o1, o2);
    var o3 := o2 + [':'];
    RenderOf1(Lit(":"));
    Extend(buf, sep + KeyPieces(key, color), [Lit(":")], o2, o3);
    match kind {
      case LevelKind => out := WriteJSONLevelValue(o3, level, color);
      case MessageKind(msg) => out := WriteJSONMessageValue(o3, msg, color);
      case DefaultKind(v) => out := WriteJSONValue(o3, v, color);
    }
    Extend(buf, sep + KeyPieces(key, color) + [Lit(":")], KindPieces(kind, level, color), o3, out);
  }

  method WriteJSONKey(buf: Bytes, key: Bytes, color: bool) returns (out: Bytes)
    ensures out == buf + Render(KeyPieces(key, color))
  {
    RenderTinted(Cyan, Json.Quoted(key), color);
    if color {
      var q := Json.AppendJSONString(PieceBytes(Cyan), key);
      out := buf + (q + PieceBytes(Reset));
    } else {
      out := Json.AppendJSONString(buf, key);
    }
  }

  method WriteJSONLevelValue(buf: Bytes, level: Level, color: bool) returns (out: Bytes)
    ensures out == buf + Render(LevelValuePieces(level, color))
  {
    var val := LevelString(level);
    RenderTinted(LevelColour(level), Quote(val), color);
    if color {
      var colour: Piece;
      if level == InfoLevel {
        colour := BrightGreen;
      } else if level == WarnLevel {
        colour := BrightYellow;
      } else if level == ErrorLevel || level == FatalLevel || level == PanicLevel {
        colour := BrightRed;
      } else if level == TraceLevel {
        colour := Blue;
      } else {
        colour := Faint;
      }
      out := buf + (PieceBytes(colour) + Quote(val) + PieceBytes(Reset));
    } else {
      out := buf + Quote(val);
    }
  }

  method WriteJSONMessageValue(buf: Bytes, msg: Bytes, color: bool) returns (out: Bytes)
    ensures out == buf + Render(MessageValuePieces(msg, color))
  {
    RenderTinted(Bold, Json.Quoted(msg), color);
    if color {
      var q := Json.AppendJSONString(PieceBytes(Bold), msg);
      out := buf + (q + PieceBytes(Reset));
    } else {
      out := Json.AppendJSONString(buf, msg);
    }
  }

  method WriteJSONString(buf: Bytes, s: Bytes, color: bool, dim: bool) returns (out: Bytes)
    ensures out == buf + Render(StringPieces(s, color, dim))
  {
    RenderString(s, color, dim);
    if !color {
      out := Json.AppendJSONString(buf, s);
    } else if dim {
      var q := Json.AppendJSONString(buf, s);
      out := q + PieceBytes(Reset);
      Concat3(buf, Json.Quoted(s), PieceBytes(Reset));
    } else {
      var q := Json.AppendJSONString(buf + PieceBytes(Green), s);
      out := q + PieceBytes(Reset);
      Concat4(buf, PieceBytes(Green), Json.Quoted(s), PieceBytes(Reset));
    }
  }

  lemma Concat4(a: Bytes, b: Bytes, c: Bytes, d: Bytes)
    ensures a + b + c + d == a + (b + c + d)
  {
  }

  /** writeJSONNumber, writeJSONUint, writeJSONRaw and the coloured
      booleans and nil: text in a colour. */
  method WriteTinted(buf: Bytes, colour: Piece, text: Bytes, color: bool) returns (out: Bytes)
    ensures out == buf + Render(Tinted(colour, text, color))
  {
    RenderTinted(colour, text, color);
    if color {
      out := buf + (PieceBytes(colour) + text + PieceBytes(Reset));
    } else {
      out := buf + text;
    }
  }

  method WriteJSONValue(buf: Bytes, v: Value, color: bool) returns (out: Bytes)
    ensures out == buf + Render(ValuePieces(v, color))
  {
    if !color {
      out := WriteJSONValuePlain(buf, v);
    } else {
      out := WriteJSONValueColoured(buf, v);
    }
  }

  /** The type switch of writeJSONValue when colour is on: the values
      written as JSON strings, then the rest. */
  method WriteJSONValueColoured(buf: Bytes, v: Value) returns (out: Bytes)
    ensures out == buf + Render(ValuePieces(v, true))
  {
    if v.Str? || v.Text? || v.AttrV? || v.ByteSlice? {
      out := WriteColouredText(buf, v);
    } else {
      out := WriteColouredOther(buf, v);
    }
  }

  method WriteColouredText(buf: Bytes, v: Value) returns (out: Bytes)
    requires v.Str? || v.Text? || v.AttrV? || v.ByteSlice?
    ensures out == buf + Render(ValuePieces(v, true))
  {
    match v {
      case Str(s) => out := WriteJSONString(buf, s, true, true);
      case Text(s) => out := WriteJSONString(buf, s, true, true);
      case AttrV(a) => out := WriteJSONString(buf, AttrText(a), true, true);
      case ByteSlice(bs) => out := WriteJSONString(buf, bs, true, true);
    }
  }

  method WriteColouredOther(buf: Bytes, v: Value) returns (out: Bytes)
    requires !(v.Str? || v.Text? || v.AttrV? || v.ByteSlice?)
    ensures out == buf + Render(ValuePieces(v, true))
  {
    match v {
      case Bool(b) => out := WriteTinted(buf, Yellow, BoolText(b), true);
      case Nil => out := WriteTinted(buf, Faint, "null", true);
      case Int(i) => out := WriteTinted(buf, Magenta, Decimal(i), true);
      case Uint(u) => out := WriteTinted(buf, Magenta, Decimal(u), true);
      case Foreign(_, r) => out := WriteRendering(buf, r, true);
      case AttrList(_, r) => out := WriteRendering(buf, r, true);
    }
  }

  method WriteRendering(buf: Bytes, r: Rendering, color: bool) returns (out: Bytes)
    ensures out == buf + Render(RenderingPieces(r, color))
  {
    match r {
      case RawJson(b) => out := WriteTinted(buf, Magenta, b, color);
      case ErrorText(t) => out := WriteJSONString(buf, t, color, true);
    }
  }

  method WriteJSONValuePlain(buf: Bytes, v: Value) returns (out: Bytes)
    ensures out == buf + Render(ValuePieces(v, false))
  {
    match v {
      case Str(s) => out := WriteJSONString(buf, s, false, true);
      case Text(s) => out := WriteJSONString(buf, s, false, true);
      case AttrV(a) => out := WriteJSONString(buf, AttrText(a), false, true);
      case Bool(b) => out := WriteTinted(buf, Yellow, BoolText(b), false);
      case Nil => out := WriteTinted(buf, Faint, "null", false);
      case Int(i) => out := WriteTinted(buf, Magenta, Decimal(i), false);
      case Uint(u) => out := WriteTinted(buf, Magenta, Decimal(u), false);
      case ByteSlice(bs) => out := WriteJSONString(buf, bs, false, true);
      case Foreign(_, r) => out := WriteRendering(buf, r, false);
      case AttrList(_, r) => out := WriteRendering(buf, r, false);
    }
  }

  // ---- Rendering ----

  lemma RenderTinted(colour: Piece, text: Bytes, color: bool)
    ensures Render(Tinted(colour, text, color))
      == if color then PieceBytes(colour) + text + PieceBytes(Reset) else text
  {
    if color {
      RenderOf3(colour, Lit(text), Reset);
    } else {
      RenderOf1(Lit(text));
    }
  }

  lemma RenderString(s: Bytes, color: bool, dim: bool)
    ensures Render(StringPieces(s, color, dim))
      == if !color then Json.Quoted(s)
         else if dim then Json.Quoted(s) + PieceBytes(Reset)
         else PieceBytes(Green) + Json.Quoted(s) + PieceBytes(Reset)
  {
    if !color {
      RenderOf1(Lit(Json.Quoted(s)));
    } else if dim {
      RenderOf2(Lit(Json.Quoted(s)), Reset);
    } else {
      RenderOf3(Green, Lit(Json.Quoted(s)), Reset);
    }
  }

  lemma RenderGeneral(level: Level, msg: Bytes, fields: seq<Field>, timestamp: Bytes, includeTime: bool,
                      names: FieldNames, color: bool)
    ensures Render(GeneralPieces(level, msg, fields, timestamp, includeTime, names, color))
      == ['{'] + Render(MembersPieces(Members(msg, fields, timestamp, includeTime, names), level, true, color)) + ['}']
  {
    var body := MembersPieces(Members(msg, fields, timestamp, includeTime, names), level, true, color);
    RenderAppend([Lit("{")] + body, [Lit("}")]);
    RenderAppend([Lit("{")], body);
    RenderOf1(Lit("{"));
    RenderOf1(Lit("}"));
  }

  /** Writing one more member: a comma goes in front unless it is the
      first. */
  lemma {:induction false} MembersSnoc(ms: seq<Member>, m: Member, level: Level, first: bool, color: bool)
    ensures MembersPieces(ms + [m], level, first, color)
      == MembersPieces(ms, level, first, color) + MemberPieces(m, level, first && ms == [], color)
    decreases |ms|
  {
    if ms == [] {
      assert ms + [m] == [m];
      assert MembersPieces([m], level, first, color) == MemberPieces(m, level, first, color) + MembersPieces([], level, false, color);
    } else {
      assert (ms + [m])[1..] == ms[1..] + [m];
      MembersSnoc(ms[1..], m, level, false, color);
    }
  }

  /** Members written one list after another. */
  lemma {:induction false} MembersAppend(a: seq<Member>, b: seq<Member>, level: Level, first: bool, color: bool)
    ensures MembersPieces(a + b, level, first, color)
      == MembersPieces(a, level, first, color) + MembersPieces(b, level, first && a == [], color)
    decreases |a|
  {
    if a == [] {
      assert a + b == b;
    } else {
      var ab := a + b;
      assert ab != [] && ab[0] == a[0] && ab[1..] == a[1..] + b;
      MembersAppend(a[1..], b, level, false, color);
      var h := MemberPieces(a[0], level, first, color);
      var x, y := MembersPieces(a[1..], level, false, color), MembersPieces(b, level, false, color);
      assert MembersPieces(ab, level, first, color) == h + (x + y);
      assert MembersPieces(a, level, first, color) == h + x;
      PiecesAssoc(h, x, y);
    }
  }

  lemma PiecesAssoc(a: seq<Piece>, b: seq<Piece>, c: seq<Piece>)
    ensures a + (b + c) == a + b + c
  {
  }

  lemma MembersOfOne(m: Member, level: Level, first: bool, color: bool)
    ensures MembersPieces([m], level, first, color) == MemberPieces(m, level, first, color)
  {
    assert MembersPieces([m], level, first, color) == MemberPieces(m, level, first, color) + MembersPieces([], level, false, color);
  }

  /** An uncoloured member: the separator, the escaped key, a colon and
      the value. */
  lemma RenderPlainMember(m: Member, level: Level, first: bool)
    ensures Render(MemberPieces(m, level, first, false))
      == (if first then [] else [',']) + Json.Quoted(m.key) + [':'] + Render(KindPieces(m.kind, level, false))
  {
    var sep: seq<Piece> := if first then [] else [Lit(",")];
    var kp := KindPieces(m.kind, level, false);
    RenderAppend(sep + [Lit(Json.Quoted(m.key))] + [Lit(":")], kp);
    RenderAppend(sep + [Lit(Json.Quoted(m.key))], [Lit(":")]);
    RenderAppend(sep, [Lit(Json.Quoted(m.key))]);
    RenderOf1(Lit(","));
    RenderOf1(Lit(Json.Quoted(m.key)));
    RenderOf1(Lit(":"));
  }

  // ---- Properties ----

  /** A string of plain bytes is written between quotes as it is. */
  lemma QuotedPlain(s: Bytes)
    requires AllPlain(s)
    ensures Json.Quoted(s) == ['"'] + s + ['"']
  {
    Json.EscapePlain(s);
  }

  lemma OpeningOfPlain(key: Bytes)
    requires AllPlain(key)
    ensures MemberOpening(key) == ['"'] + key + ['"', ':', '"']
  {
    QuotedPlain(key);
  }

  /** Both sets of field names carry, as prefixes, exactly the openings of
      members with their keys. */
  lemma NamePrefixes()
    ensures PrefixesFit(ShortNames) && PrefixesFit(VerboseNames)
  {
    ShortPrefixes();
    VerbosePrefixes();
  }

  lemma ShortPrefixes()
    ensures PrefixesFit(ShortNames)
  {
    ShortTimePrefix();
    ShortLevelPrefix();
    ShortMessagePrefix();
  }

  lemma VerbosePrefixes()
    ensures PrefixesFit(VerboseNames)
  {
    VerboseTimePrefix();
    VerboseLevelPrefix();
    VerboseMessagePrefix();
  }

  lemma ShortTimePrefix()
    ensures ShortNames.timePrefix == MemberOpening(ShortNames.time)
  {
    OpeningOfPlain("ts");
  }

  lemma ShortLevelPrefix()
    ensures ShortNames.levelPrefix == MemberOpening(ShortNames.level)
  {
    OpeningOfPlain("lvl");
  }

  lemma ShortMessagePrefix()
    ensures ShortNames.messagePrefix == MemberOpening(ShortNames.message)
  {
    OpeningOfPlain("msg");
  }

  lemma VerboseTimePrefix()
    ensures VerboseNames.timePrefix == MemberOpening(VerboseNames.time)
  {
    OpeningOfPlain("time");
  }

  lemma VerboseLevelPrefix()
    ensures VerboseNames.levelPrefix == MemberOpening(VerboseNames.level)
  {
    OpeningOfPlain("level");
  }

  lemma VerboseMessagePrefix()
    ensures VerboseNames.messagePrefix == MemberOpening(VerboseNames.message)
  {
    OpeningOfPlain("message");
  }

  /** No byte that needsQuote passes needs a JSON escape. */
  lemma NoQuoteWorthyIsPlain(s: Bytes)
    requires !PslConsole.HasQuoteWorthy(s)
    ensures AllPlain(s)
  {
    assert forall k :: 0 <= k < |s| ==> !PslConsole.QuoteWorthy(s[k]);
  }

  lemma LevelStringQuote(level: Level)
    ensures Quote(LevelString(level)) == ['"'] + LevelString(level) + ['"']
  {
    var s := LevelString(level);
    assert forall k :: 0 <= k < |s| ==> Printable(s[k]);
    QuotePrintable(s);
  }

  /** A fast field is the member the general path writes for a string
      value that needs no escape. */
  lemma FastFieldIsMember(key: Bytes, prefix: Bytes, value: Bytes, first: bool)
    requires prefix == MemberOpening(key)
    ensures FastField(prefix, value, first)
      == (if first then [] else [',']) + Json.Quoted(key) + [':'] + (['"'] + value + ['"'])
  {
  }

  lemma FastTimeIsMember(level: Level, timestamp: Bytes, names: FieldNames)
    requires PrefixesFit(names) && AllPlain(timestamp)
    ensures Render(MemberPieces(Member(names.time, DefaultKind(Str(timestamp))), level, true, false))
      == FastField(names.timePrefix, timestamp, true)
  {
    var m := Member(names.time, DefaultKind(Str(timestamp)));
    RenderPlainMember(m, level, true);
    RenderOf1(Lit(Json.Quoted(timestamp)));
    QuotedPlain(timestamp);
    FastFieldIsMember(names.time, names.timePrefix, timestamp, true);
  }

  lemma FastLevelIsMember(level: Level, names: FieldNames, first: bool)
    requires PrefixesFit(names)
    ensures Render(MemberPieces(Member(names.level, LevelKind), level, first, false))
      == FastField(names.levelPrefix, LevelString(level), first)
  {
    var m := Member(names.level, LevelKind);
    RenderPlainMember(m, level, first);
    RenderOf1(Lit(Quote(LevelString(level))));
    LevelStringQuote(level);
    FastFieldIsMember(names.level, names.levelPrefix, LevelString(level), first);
  }

  lemma FastMessageIsMember(level: Level, msg: Bytes, names: FieldNames)
    requires PrefixesFit(names) && msg != []
    ensures Render(MemberPieces(Member(names.message, MessageKind(msg)), level, false, false))
      == FastMessage(msg, names)
  {
    var m := Member(names.message, MessageKind(msg));
    RenderPlainMember(m, level, false);
    RenderOf1(Lit(Json.Quoted(msg)));
    if !PslConsole.HasQuoteWorthy(msg) {
      NoQuoteWorthyIsPlain(msg);
      QuotedPlain(msg);
      FastFieldIsMember(names.message, names.messagePrefix, msg, false);
    }
  }

  lemma FastTimeIsMembers(level: Level, timestamp: Bytes, includeTime: bool, names: FieldNames)
    requires PrefixesFit(names)
    requires includeTime ==> AllPlain(timestamp)
    ensures var t: seq<Member> := if includeTime then [Member(names.time, DefaultKind(Str(timestamp)))] else [];
      Render(MembersPieces(t, level, true, false)) == FastTime(timestamp, includeTime, names)
  {
    if includeTime {
      MembersOfOne(Member(names.time, DefaultKind(Str(timestamp))), level, true, false);
      FastTimeIsMember(level, timestamp, names);
    }
  }

  lemma FastMessageIsMembers(level: Level, msg: Bytes, names: FieldNames)
    requires PrefixesFit(names)
    ensures var m: seq<Member> := if msg != [] then [Member(names.message, MessageKind(msg))] else [];
      Render(MembersPieces(m, level, false, false)) == FastMessage(msg, names)
  {
    if msg != [] {
      MembersOfOne(Member(names.message, MessageKind(msg)), level, false, false);
      FastMessageIsMember(level, msg, names);
    }
  }

  lemma FastIsFixed(level: Level, msg: Bytes, timestamp: Bytes, includeTime: bool, names: FieldNames)
    requires PrefixesFit(names)
    requires includeTime ==> AllPlain(timestamp)
    ensures Render(MembersPieces(FixedMembers(msg, timestamp, includeTime, names), level, true, false))
      == FastTime(timestamp, includeTime, names) + FastField(names.levelPrefix, LevelString(level), !includeTime)
         + FastMessage(msg, names)
  {
    var t: seq<Member> := if includeTime then [Member(names.time, DefaultKind(Str(timestamp)))] else [];
    var l := Member(names.level, LevelKind);
    var m: seq<Member> := if msg != [] then [Member(names.message, MessageKind(msg))] else [];
    MembersAppend(t + [l], m, level, true, false);
    MembersAppend(t, [l], level, true, false);
    MembersOfOne(l, level, !includeTime, false);
    var tp, lp, mp := MembersPieces(t, level, true, false), MemberPieces(l, level, !includeTime, false), MembersPieces(m, level, false, false);
    RenderAppend(tp + lp, mp);
    RenderAppend(tp, lp);
    FastTimeIsMembers(level, timestamp, includeTime, names);
    FastLevelIsMember(level, names, !includeTime);
    FastMessageIsMembers(level, msg, names);
  }

  /** The fast path writes what the general path would, uncoloured and
      without fields, as long as the timestamp needs no escape (the fast
      path copies it as it is). */
  lemma FastIsGeneral(level: Level, msg: Bytes, timestamp: Bytes, includeTime: bool, names: FieldNames)
    requires PrefixesFit(names)
    requires includeTime ==> AllPlain(timestamp)
    ensures FastLine(level, msg, timestamp, includeTime, names)
      == Render(GeneralPieces(level, msg, [], timestamp, includeTime, names, false))
  {
    var noFields: seq<Field> := [];
    MembersWithoutFields(msg, timestamp, includeTime, names);
    RenderGeneral(level, msg, noFields, timestamp, includeTime, names, false);
    FastIsFixed(level, msg, timestamp, includeTime, names);
    Bracket(FastLine(level, msg, timestamp, includeTime, names),
            Render(GeneralPieces(level, msg, noFields, timestamp, includeTime, names, false)),
            Render(MembersPieces(FixedMembers(msg, timestamp, includeTime, names), level, true, false)),
            FastTime(timestamp, includeTime, names), FastField(names.levelPrefix, LevelString(level), !includeTime),
            FastMessage(msg, names));
  }

  lemma MembersWithoutFields(msg: Bytes, timestamp: Bytes, includeTime: bool, names: FieldNames)
    ensures Members(msg, [], timestamp, includeTime, names) == FixedMembers(msg, timestamp, includeTime, names)
  {
    assert FieldMembers([]) == [];
  }

  lemma Bracket(fast: Bytes, general: Bytes, body: Bytes, t: Bytes, l: Bytes, m: Bytes)
    requires fast == ['{'] + t + l + m + ['}']
    requires general == ['{'] + body + ['}']
    requires body == t + l + m
    ensures fast == general
  {
  }

  // ---- Colour adds only SGR sequences ----

  /** Raw JSON of a value holds no ESC byte (json.Marshal never writes one;
      a MarshalJSON method might). */
  predicate RawEscFree(v: Value) {
    match v
    case Foreign(_, RawJson(b)) => Esc !in b
    case AttrList(_, RawJson(b)) => Esc !in b
    case _ => true
  }

  predicate MemberEscFree(m: Member) {
    m.kind.DefaultKind? ==> RawEscFree(m.kind.value)
  }

  lemma QuotedHasNoEsc(s: Bytes)
    ensures Esc !in Json.Quoted(s)
  {
    Json.EscapeHasNoControl(s);
    var e := Json.Escape(s);
    assert Esc !in e by {
      assert forall k :: 0 <= k < |e| ==> e[k] != Esc;
    }
  }

  lemma DecimalHasNoEsc(i: int)
    ensures Esc !in Decimal(i)
  {
    var d := Decimal(i);
    assert forall k :: 0 <= k < |d| ==> d[k] != Esc by {
      forall k | 0 <= k < |d|
        ensures d[k] != Esc
      {
        if i < 0 && k > 0 {
          assert d[k] == d[1..][k - 1];
        }
      }
    }
  }

  lemma LevelColourIsSgr(level: Level)
    ensures LevelColour(level).Sgr? && AllParams(LevelColour(level).params)
  {
  }

  lemma ColoursAreSgr()
    ensures AllParams(Reset.params) && AllParams(Cyan.params) && AllParams(Bold.params)
    ensures AllParams(Yellow.params) && AllParams(Faint.params) && AllParams(Magenta.params)
  {
  }

  lemma NoneColourOf()
    ensures ColourOf([], [])
  {
  }

  lemma LitColourOf(t: Bytes)
    requires Esc !in t
    ensures ColourOf([Lit(t)], [Lit(t)])
  {
  }

  lemma TintedColourOf(c: Piece, t: Bytes)
    requires c.Sgr? && AllParams(c.params) && Esc !in t
    ensures ColourOf(Tinted(c, t, true), Tinted(c, t, false))
  {
    ColoursAreSgr();
    DropFirst(c, Lit(t), Reset);
  }

  lemma StringColourOf(s: Bytes)
    ensures ColourOf(StringPieces(s, true, true), StringPieces(s, false, true))
  {
    QuotedHasNoEsc(s);
    ColoursAreSgr();
    var q := Lit(Json.Quoted(s));
    assert Stripped([q, Reset]) == q.bytes + Stripped([Reset]);
  }

  lemma RenderingColourOf(r: Rendering)
    requires r.RawJson? ==> Esc !in r.bytes
    ensures ColourOf(RenderingPieces(r, true), RenderingPieces(r, false))
  {
    ColoursAreSgr();
    match r
    case RawJson(b) => TintedColourOf(Magenta, b);
    case ErrorText(t) => StringColourOf(t);
  }

  lemma ValueColourOf(v: Value)
    requires RawEscFree(v)
    ensures ColourOf(ValuePieces(v, true), ValuePieces(v, false))
  {
    ColoursAreSgr();
    match v
    case Str(s) => StringColourOf(s);
    case Text(s) => StringColourOf(s);
    case AttrV(a) => StringColourOf(AttrText(a));
    case Bool(b) => TintedColourOf(Yellow, BoolText(b));
    case Nil => TintedColourOf(Faint, "null");
    case Int(i) => DecimalHasNoEsc(i); TintedColourOf(Magenta, Decimal(i));
    case Uint(u) => DecimalHasNoEsc(u); TintedColourOf(Magenta, Decimal(u));
    case ByteSlice(bs) => StringColourOf(bs);
    case Foreign(_, r) => RenderingColourOf(r);
    case AttrList(_, r) => RenderingColourOf(r);
  }

  lemma KindColourOf(kind: Kind, level: Level)
    requires kind.DefaultKind? ==> RawEscFree(kind.value)
    ensures ColourOf(KindPieces(kind, level, true), KindPieces(kind, level, false))
  {
    ColoursAreSgr();
    match kind
    case LevelKind =>
      LevelColourIsSgr(level);
      QuoteHasNoControl(LevelString(level));
      var q := Quote(LevelString(level));
      assert Esc !in q by {
        assert forall k :: 0 <= k < |q| ==> q[k] != Esc;
      }
      TintedColourOf(LevelColour(level), q);
    case MessageKind(msg) =>
      QuotedHasNoEsc(msg);
      TintedColourOf(Bold, Json.Quoted(msg));
    case DefaultKind(v) => ValueColourOf(v);
  }

  lemma MemberColourOf(m: Member, level: Level, first: bool)
    requires MemberEscFree(m)
    ensures ColourOf(MemberPieces(m, level, first, true), MemberPieces(m, level, first, false))
  {
    ColoursAreSgr();
    var sep: seq<Piece> := if first then [] else [Lit(",")];
    if first { NoneColourOf(); } else { LitColourOf(","); }
    QuotedHasNoEsc(m.key);
    TintedColourOf(Cyan, Json.Quoted(m.key));
    ColourOfAppend(sep, sep, KeyPieces(m.key, true), KeyPieces(m.key, false));
    LitColourOf(":");
    ColourOfAppend(sep + KeyPieces(m.key, true), sep + KeyPieces(m.key, false), [Lit(":")], [Lit(":")]);
    KindColourOf(m.kind, level);
    ColourOfAppend(sep + KeyPieces(m.key, true) + [Lit(":")], sep + KeyPieces(m.key, false) + [Lit(":")],
                   KindPieces(m.kind, level, true), KindPieces(m.kind, level, false));
  }

  lemma {:induction false} MembersColourOf(ms: seq<Member>, level: Level, first: bool)
    requires forall k :: 0 <= k < |ms| ==> MemberEscFree(ms[k])
    ensures ColourOf(MembersPieces(ms, level, first, true), MembersPieces(ms, level, first, false))
    decreases |ms|
  {
    if ms == [] {
      NoneColourOf();
    } else {
      MemberColourOf(ms[0], level, first);
      assert forall k :: 0 <= k < |ms| - 1 ==> ms[1..][k] == ms[k + 1];
      MembersColourOf(ms[1..], level, false);
      ColourOfAppend(MemberPieces(ms[0], level, first, true), MemberPieces(ms[0], level, first, false),
                     MembersPieces(ms[1..], level, false, true), MembersPieces(ms[1..], level, false, false));
    }
  }

  /** Taking the SGR sequences out of a coloured line leaves the line
      written without colour, provided no raw JSON value holds an ESC. */
  lemma ColourOnlyAddsSgr(level: Level, msg: Bytes, fields: seq<Field>, timestamp: Bytes, includeTime: bool, names: FieldNames)
    requires forall k :: 0 <= k < |fields| ==> RawEscFree(fields[k].value)
    ensures StripSgr(Render(GeneralPieces(level, msg, fields, timestamp, includeTime, names, true)))
      == Render(GeneralPieces(level, msg, fields, timestamp, includeTime, names, false))
  {
    var ms := Members(msg, fields, timestamp, includeTime, names);
    var fixed := FixedMembers(msg, timestamp, includeTime, names);
    assert forall k :: 0 <= k < |fixed| ==> MemberEscFree(fixed[k]);
    assert forall k :: |fixed| <= k < |ms| ==> ms[k] == FieldMembers(fields)[k - |fixed|];
    MembersColourOf(ms, level, true);
    LitColourOf("{");
    LitColourOf("}");
    var a, b := MembersPieces(ms, level, true, true), MembersPieces(ms, level, true, false);
    ColourOfAppend([Lit("{")], [Lit("{")], a, b);
    ColourOfAppend([Lit("{")] + a, [Lit("{")] + b, [Lit("}")], [Lit("}")]);
    StripColourOf(GeneralPieces(level, msg, fields, timestamp, includeTime, names, true),
                  GeneralPieces(level, msg, fields, timestamp, includeTime, names, false));
  }

  // ---- Reading a line back ----

  /** A member value as a JSON reader sees it: a decoded string, or a bare
      token (a number, true, false, null). */
  datatype Token = JString(s: Bytes) | JBare(text: Bytes)

  /** The number of bytes before the next ',' or '}'. */
  function BareLength(p: Bytes): (r: nat)
    ensures r <= |p|
    decreases |p|
  {
    if p == [] || p[0] == ',' || p[0] == '}' then 0 else 1 + BareLength(p[1..])
  }

  /** A member value at the start of p, and what follows it. */
  function ReadValue(p: Bytes): (r: Option<(Token, Bytes)>)
    ensures r.Some? ==> |r.value.1| < |p|
  {
    if p != [] && p[0] == '"' then
      match Json.ParseString(p)
      case None => None
      case Some((s, rest)) => Some((JString(s), rest))
    else
      var n := BareLength(p);
      if n == 0 then None else Some((JBare(p[..n]), p[n..]))
  }

  /** One member at the start of q: a JSON string key, a colon and a
      value, and what follows the value. */
  function ReadPair(q: Bytes): (r: Option<(Bytes, Token, Bytes)>)
    ensures r.Some? ==> |r.value.2| < |q|
  {
    match Json.ParseString(q)
    case None => None
    case Some((key, r1)) =>
      if r1 == [] || r1[0] != ':' then None
      else
        match ReadValue(r1[1..])
        case None => None
        case Some((val, r2)) => Some((key, val, r2))
  }

  /** The members of an object up to its closing brace, which must end p;
      a comma goes before every member but the first. */
  function ReadMembers(p: Bytes, first: bool): (r: Option<seq<(Bytes, Token)>>)
    decreases |p|
  {
    if p == [] then None
    else if p[0] == '}' then (if |p| == 1 then Some([]) else None)
    else if !first && p[0] != ',' then None
    else
      match ReadPair(if first then p else p[1..])
      case None => None
      case Some((key, val, rest)) =>
        match ReadMembers(rest, false)
        case None => None
        case Some(more) => Some([(key, val)] + more)
  }

  /** A flat JSON object whose values are strings or bare tokens, as key and
      value pairs in their order in the text. */
  function ReadObject(p: Bytes): Option<seq<(Bytes, Token)>> {
    if p != [] && p[0] == '{' then ReadMembers(p[1..], true) else None
  }

  /** Raw JSON that reads as one bare token. */
  predicate BareText(t: Bytes) { t != [] && t[0] != '"' && ',' !in t && '}' !in t }

  /** A value whose JSON the reader takes back: anything but raw JSON that
      is not a bare token (an object, an array, a string). */
  predicate Readable(v: Value) {
    match v
    case Foreign(_, RawJson(b)) => BareText(b)
    case AttrList(_, RawJson(b)) => BareText(b)
    case _ => true
  }

  predicate MemberReadable(m: Member) {
    m.kind.DefaultKind? ==> Readable(m.kind.value)
  }

  function RenderingToken(r: Rendering): Token {
    match r
    case RawJson(b) => JBare(b)
    case ErrorText(t) => JString(t)
  }

  /** What a reader gets back for a value. */
  function ValueToken(v: Value): Token {
    match v
    case Str(s) => JString(s)
    case Text(s) => JString(s)
    case AttrV(a) => JString(AttrText(a))
    case Bool(b) => JBare(BoolText(b))
    case Nil => JBare("null")
    case Int(i) => JBare(Decimal(i))
    case Uint(u) => JBare(Decimal(u))
    case ByteSlice(bs) => JString(bs)
    case Foreign(_, r) => RenderingToken(r)
    case AttrList(_, r) => RenderingToken(r)
  }

  function KindToken(kind: Kind, level: Level): Token {
    match kind
    case LevelKind => JString(LevelString(level))
    case MessageKind(msg) => JString(msg)
    case DefaultKind(v) => ValueToken(v)
  }

  /** The key and value pairs a reader should get for these members. */
  function Decoded(ms: seq<Member>, level: Level): (r: seq<(Bytes, Token)>)
    ensures |r| == |ms|
    decreases |ms|
  {
    if ms == [] then [] else [(ms[0].key, KindToken(ms[0].kind, level))] + Decoded(ms[1..], level)
  }

  /** What may follow a value: a comma or the closing brace. */
  predicate ValueEnd(rest: Bytes) { rest != [] && (rest[0] == ',' || rest[0] == '}') }

  lemma {:induction false} BareLengthOf(t: Bytes, rest: Bytes)
    requires ',' !in t && '}' !in t && ValueEnd(rest)
    ensures BareLength(t + rest) == |t|
    decreases |t|
  {
    if t == [] {
      assert t + rest == rest;
    } else {
      assert t[0] in t;
      assert (t + rest)[1..] == t[1..] + rest;
      assert ',' !in t[1..] && '}' !in t[1..] by {
        assert forall k :: 0 <= k < |t| - 1 ==> t[1..][k] == t[k + 1];
      }
      BareLengthOf(t[1..], rest);
    }
  }

  lemma ReadBare(t: Bytes, rest: Bytes)
    requires BareText(t) && ValueEnd(rest)
    ensures ReadValue(t + rest) == Some((JBare(t), rest))
  {
    BareLengthOf(t, rest);
    assert (t + rest)[0] == t[0];
    assert (t + rest)[..|t|] == t && (t + rest)[|t|..] == rest;
  }

  lemma ReadString(s: Bytes, rest: Bytes)
    ensures ReadValue(Json.Quoted(s) + rest) == Some((JString(s), rest))
  {
    Json.ParseQuoted(s, rest);
    assert (Json.Quoted(s) + rest)[0] == '"';
  }

  lemma DecimalIsBare(i: int)
    ensures BareText(Decimal(i))
  {
    var d := Decimal(i);
    assert forall k :: 0 <= k < |d| ==> d[k] != ',' && d[k] != '}' by {
      forall k | 0 <= k < |d|
        ensures d[k] != ',' && d[k] != '}'
      {
        if i < 0 && k > 0 {
          assert d[k] == d[1..][k - 1];
        }
      }
    }
  }

  lemma LiteralsAreBare()
    ensures BareText("true") && BareText("false") && BareText("null")
  {
  }

  lemma ReadRendering(r: Rendering, rest: Bytes)
    requires r.RawJson? ==> BareText(r.bytes)
    requires ValueEnd(rest)
    ensures ReadValue(Render(RenderingPieces(r, false)) + rest) == Some((RenderingToken(r), rest))
  {
    match r
    case RawJson(b) =>
      RenderOf1(Lit(b));
      ReadBare(b, rest);
    case ErrorText(t) =>
      RenderOf1(Lit(Json.Quoted(t)));
      ReadString(t, rest);
  }

  lemma ReadPlainValue(v: Value, rest: Bytes)
    requires Readable(v) && ValueEnd(rest)
    ensures ReadValue(Render(ValuePieces(v, false)) + rest) == Some((ValueToken(v), rest))
  {
    LiteralsAreBare();
    match v
    case Str(s) => RenderOf1(Lit(Json.Quoted(s))); ReadString(s, rest);
    case Text(s) => RenderOf1(Lit(Json.Quoted(s))); ReadString(s, rest);
    case AttrV(a) => RenderOf1(Lit(Json.Quoted(AttrText(a)))); ReadString(AttrText(a), rest);
    case Bool(b) => RenderOf1(Lit(BoolText(b))); ReadBare(BoolText(b), rest);
    case Nil => RenderOf1(Lit("null")); ReadBare("null", rest);
    case Int(i) => RenderOf1(Lit(Decimal(i))); DecimalIsBare(i); ReadBare(Decimal(i), rest);
    case Uint(u) => RenderOf1(Lit(Decimal(u))); DecimalIsBare(u); ReadBare(Decimal(u), rest);
    case ByteSlice(bs) => RenderOf1(Lit(Json.Quoted(bs))); ReadString(bs, rest);
    case Foreign(_, r) => ReadRendering(r, rest);
    case AttrList(_, r) => ReadRendering(r, rest);
  }

  lemma ReadKind(kind: Kind, level: Level, rest: Bytes)
    requires kind.DefaultKind? ==> Readable(kind.value)
    requires ValueEnd(rest)
    ensures ReadValue(Render(KindPieces(kind, level, false)) + rest) == Some((KindToken(kind, level), rest))
  {
    match kind
    case LevelKind =>
      var ls := LevelString(level);
      RenderOf1(Lit(Quote(ls)));
      LevelStringQuote(level);
      assert AllPlain(ls);
      QuotedPlain(ls);
      ReadString(ls, rest);
    case MessageKind(msg) =>
      RenderOf1(Lit(Json.Quoted(msg)));
      ReadString(msg, rest);
    case DefaultKind(v) => ReadPlainValue(v, rest);
  }

  /** After the first member, the rest of an uncoloured line starts with a
      comma or the closing brace. */
  lemma MembersEnd(ms: seq<Member>, level: Level)
    ensures ValueEnd(Render(MembersPieces(ms, level, false, false)) + ['}'])
  {
    if ms != [] {
      RenderAppend(MemberPieces(ms[0], level, false, false), MembersPieces(ms[1..], level, false, false));
      RenderPlainMember(ms[0], level, false);
    }
  }

  /** The reader takes one member off the front. */
  lemma ReadMembersStep(m: Member, level: Level, first: bool, tail: Bytes, more: seq<(Bytes, Token)>)
    requires MemberReadable(m) && ValueEnd(tail)
    requires ReadMembers(tail, false) == Some(more)
    ensures ReadMembers(Render(MemberPieces(m, level, first, false)) + tail, first)
      == Some([(m.key, KindToken(m.kind, level))] + more)
  {
    var v := Render(KindPieces(m.kind, level, false));
    MemberBytes(m, level, first, tail);
    ReadKind(m.kind, level, tail);
    ReadMember((if first then [] else [',']) + Json.Quoted(m.key) + ([':'] + (v + tail)), first, m.key, v + tail,
               KindToken(m.kind, level), tail, more);
  }

  lemma MemberBytes(m: Member, level: Level, first: bool, tail: Bytes)
    ensures Render(MemberPieces(m, level, first, false)) + tail
      == (if first then [] else [',']) + Json.Quoted(m.key) + ([':'] + (Render(KindPieces(m.kind, level, false)) + tail))
  {
    RenderPlainMember(m, level, first);
    Assoc5(if first then [] else [','], Json.Quoted(m.key), [':'], Render(KindPieces(m.kind, level, false)), tail);
  }

  lemma Assoc5(a: Bytes, b: Bytes, c: Bytes, d: Bytes, e: Bytes)
    ensures a + b + c + d + e == a + b + (c + (d + e))
  {
  }

  lemma ReadPairOf(key: Bytes, valueAndTail: Bytes, token: Token, tail: Bytes)
    requires ReadValue(valueAndTail) == Some((token, tail))
    ensures ReadPair(Json.Quoted(key) + ([':'] + valueAndTail)) == Some((key, token, tail))
  {
    var after := [':'] + valueAndTail;
    Json.ParseQuoted(key, after);
    assert after[1..] == valueAndTail;
  }

  /** ReadMembers on a member, a key then a value, and the rest. */
  lemma ReadMember(p: Bytes, first: bool, key: Bytes, valueAndTail: Bytes, token: Token, tail: Bytes,
                   more: seq<(Bytes, Token)>)
    requires p == (if first then [] else [',']) + Json.Quoted(key) + ([':'] + valueAndTail)
    requires ReadValue(valueAndTail) == Some((token, tail))
    requires ReadMembers(tail, false) == Some(more)
    ensures ReadMembers(p, first) == Some([(key, token)] + more)
  {
    var q := Json.Quoted(key) + ([':'] + valueAndTail);
    ReadPairOf(key, valueAndTail, token, tail);
    QuotedStart(key, [':'] + valueAndTail);
    SepThen(first, Json.Quoted(key), [':'] + valueAndTail);
    ReadMembersUnfold(p, first, q, key, token, tail, more);
  }

  lemma QuotedStart(s: Bytes, rest: Bytes)
    ensures (Json.Quoted(s) + rest)[0] == '"'
  {
  }

  lemma SepThen(first: bool, a: Bytes, b: Bytes)
    requires a != []
    ensures var p := (if first then [] else [',']) + a + b;
      (if first then p else p[1..]) == a + b && p[0] == (if first then a[0] else ',')
  {
  }

  lemma ReadMembersUnfold(p: Bytes, first: bool, q: Bytes, key: Bytes, token: Token, tail: Bytes,
                          more: seq<(Bytes, Token)>)
    requires p != [] && p[0] != '}' && (first || p[0] == ',')
    requires (if first then p else p[1..]) == q
    requires ReadPair(q) == Some((key, token, tail))
    requires ReadMembers(tail, false) == Some(more)
    ensures ReadMembers(p, first) == Some([(key, token)] + more)
  {
  }

  lemma {:induction false} ReadMembersOf(ms: seq<Member>, level: Level, first: bool)
    requires forall k :: 0 <= k < |ms| ==> MemberReadable(ms[k])
    ensures ReadMembers(Render(MembersPieces(ms, level, first, false)) + ['}'], first) == Some(Decoded(ms, level))
    decreases |ms|
  {
    if ms == [] {
      assert Render(MembersPieces(ms, level, first, false)) + ['}'] == ['}'];
    } else {
      var rest := ms[1..];
      assert forall k :: 0 <= k < |rest| ==> rest[k] == ms[k + 1];
      ReadMembersOf(rest, level, false);
      MembersEnd(rest, level);
      var tail := Render(MembersPieces(rest, level, false, false)) + ['}'];
      ReadMembersStep(ms[0], level, first, tail, Decoded(rest, level));
      MembersBytes(ms, level, first);
    }
  }

  lemma MembersBytes(ms: seq<Member>, level: Level, first: bool)
    requires ms != []
    ensures Render(MembersPieces(ms, level, first, false)) + ['}']
      == Render(MemberPieces(ms[0], level, first, false)) + (Render(MembersPieces(ms[1..], level, false, false)) + ['}'])
  {
    RenderAppend(MemberPieces(ms[0], level, first, false), MembersPieces(ms[1..], level, false, false));
  }

  /** The members of a line in the order a reader meets them. */
  function LineMembers(level: Level, msg: Bytes, fields: seq<Field>, timestamp: Bytes, includeTime: bool,
                       names: FieldNames): seq<(Bytes, Token)> {
    Decoded(Members(msg, fields, timestamp, includeTime, names), level)
  }

  predicate FieldsReadable(fields: seq<Field>) {
    forall k :: 0 <= k < |fields| ==> Readable(fields[k].value)
  }

  lemma MembersReadable(msg: Bytes, fields: seq<Field>, timestamp: Bytes, includeTime: bool, names: FieldNames)
    requires FieldsReadable(fields)
    ensures var ms := Members(msg, fields, timestamp, includeTime, names);
      forall k :: 0 <= k < |ms| ==> MemberReadable(ms[k])
  {
    var ms := Members(msg, fields, timestamp, includeTime, names);
    var fixed := FixedMembers(msg, timestamp, includeTime, names);
    assert forall k :: 0 <= k < |fixed| ==> MemberReadable(fixed[k]);
    assert forall k :: |fixed| <= k < |ms| ==> ms[k] == FieldMembers(fields)[k - |fixed|];
  }

  lemma ReadBraced(body: Bytes)
    ensures ReadObject(['{'] + body + ['}']) == ReadMembers(body + ['}'], true)
  {
    assert (['{'] + body + ['}'])[1..] == body + ['}'];
  }

  /** The uncoloured general line is a JSON object holding the time, the
      level, the message and the fields, in that order, with their values. */
  lemma GeneralReadsBack(level: Level, msg: Bytes, fields: seq<Field>, timestamp: Bytes, includeTime: bool, names: FieldNames)
    requires FieldsReadable(fields)
    ensures ReadObject(Render(GeneralPieces(level, msg, fields, timestamp, includeTime, names, false)))
      == Some(LineMembers(level, msg, fields, timestamp, includeTime, names))
  {
    var ms := Members(msg, fields, timestamp, includeTime, names);
    MembersReadable(msg, fields, timestamp, includeTime, names);
    ReadMembersOf(ms, level, true);
    RenderGeneral(level, msg, fields, timestamp, includeTime, names, false);
    ReadBraced(Render(MembersPieces(ms, level, true, false)));
  }

  /** Every line writeStructured writes without colour reads back as those
      members, on the fast path as on the general one. */
  lemma LineReadsBack(level: Level, msg: Bytes, fields: seq<Field>, timestamp: Bytes, includeTime: bool,
                      names: FieldNames, colorJSON: bool, colorEnabled: bool)
    requires !(colorJSON && colorEnabled)
    requires PrefixesFit(names) && (includeTime ==> AllPlain(timestamp))
    requires FieldsReadable(fields)
    ensures ReadObject(StructuredLine(level, msg, fields, timestamp, includeTime, names, colorJSON, colorEnabled))
      == Some(LineMembers(level, msg, fields, timestamp, includeTime, names))
  {
    if fields == [] {
      FastIsGeneral(level, msg, timestamp, includeTime, names);
    }
    GeneralReadsBack(level, msg, fields, timestamp, includeTime, names);
  }

  /** A coloured line, its SGR sequences taken out, reads back the same. */
  lemma ColouredLineReadsBack(level: Level, msg: Bytes, fields: seq<Field>, timestamp: Bytes, includeTime: bool,
                              names: FieldNames)
    requires FieldsReadable(fields)
    requires forall k :: 0 <= k < |fields| ==> RawEscFree(fields[k].value)
    ensures ReadObject(StripSgr(StructuredLine(level, msg, fields, timestamp, includeTime, names, true, true)))
      == Some(LineMembers(level, msg, fields, timestamp, includeTime, names))
  {
    ColourOnlyAddsSgr(level, msg, fields, timestamp, includeTime, names);
    GeneralReadsBack(level, msg, fields, timestamp, includeTime, names);
  }
}
