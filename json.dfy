/** The JSON string escaper of the PSL encoder (appendJSONString) and, as its
    partner, a decoder for JSON string literals as section 7 of RFC 8259
    defines them. */
module Json {
  import opened GoBytes

  const Quote: Byte := '"'
  const Backslash: Byte := '\\'
  const Backspace: Byte := 8 as char
  const FormFeed: Byte := 12 as char
  /** A byte appendJSONString copies as it is. Every byte of 0x80 and above
      is one: the invalid UTF-8 such a byte may start decodes to RuneError,
      which is above 0x20 and so takes the same branch as valid runes. */
  predicate Plain(b: Byte) { b as int >= 0x20 && b != Backslash && b != Quote }

  /** What appendJSONString writes for one byte of the string. A control
      byte other than the five with short escapes becomes \\u00 and the hex
      digits b>>4 and b&0xF, which for b < 0x20 are "0" or "1" and the rest. */
  function EscapeByte(b: Byte): (r: Bytes)
    ensures |r| >= 1
  {
    if Plain(b) then [b]
    else if b in ShortEscapes then [Backslash, ShortEscapes[b]]
    else [Backslash, 'u', '0', '0', if b as int < 0x10 then '0' else '1', HexDigit(b as int % 16)]
  }

  /** The bytes with a two-byte escape, and the letter after the backslash. */
  const ShortEscapes: map<Byte, Byte> := map[
    Quote := Quote, Backslash := Backslash, Backspace := 'b', FormFeed := 'f',
    '\n' := 'n', '\r' := 'r', '\t' := 't']

  /** A plain byte is copied; any other byte becomes an escape sequence,
      which starts with a backslash; either way no control byte is written. */
  lemma EscapeByteShape(b: Byte)
    ensures Plain(b) <==> EscapeByte(b) == [b]
    ensures !Plain(b) ==> |EscapeByte(b)| >= 2 && EscapeByte(b)[0] == Backslash
    ensures forall k :: 0 <= k < |EscapeByte(b)| ==> EscapeByte(b)[k] as int >= 0x20
  {
  }

  /** The text appendJSONString puts between the quotes. */
  function Escape(s: Bytes): Bytes {
    FlatMap(EscapeByte, s)
  }

  /** The quoted JSON string appendJSONString appends. */
  function Quoted(s: Bytes): Bytes {
    [Quote] + Escape(s) + [Quote]
  }

  /** Escaping changes nothing in a string that needs no escape. */
  lemma EscapePlain(s: Bytes)
    requires forall k :: 0 <= k < |s| ==> Plain(s[k])
    ensures Escape(s) == s
  {
    PlainEscapes();
    FlatMapFixed(EscapeByte, s);
  }

  /** The escaped text holds no raw control byte. */
  lemma {:induction false} EscapeHasNoControl(s: Bytes)
    ensures forall k :: 0 <= k < |Escape(s)| ==> Escape(s)[k] as int >= 0x20
    decreases |s|
  {
    if s != [] {
      EscapeHasNoControl(s[1..]);
      EscapeByteShape(s[0]);
      var e, r := EscapeByte(s[0]), Escape(s[1..]);
      assert Escape(s) == e + r;
      assert forall k :: |e| <= k < |e + r| ==> (e + r)[k] == r[k - |e|];
    }
  }

  /** appendJSONString: the i and start cursors skip runs of plain bytes,
      which are copied in one piece before each escape. */
  method AppendJSONString(buf: Bytes, s: Bytes) returns (out: Bytes)
    ensures out == buf + Quoted(s)
  {
    out := buf + [Quote];
    ghost var head := out;
    var start, i := 0, 0;
    while i < |s|
      invariant 0 <= start <= i <= |s|
      invariant out == head + Escape(s[..start])
      invariant forall k :: start <= k < i ==> Plain(s[k])
    {
      var c := s[i];
      if c as int >= 0x20 && c != Backslash && c != Quote {
        i := i + 1;
        continue;
      }
      ghost var before := out;
      if start < i {
        out := out + s[start..i];
      }
      var esc := ControlEscape(c);
      out := out + esc;
      EscapeRunThenByte(head, before, s, start, i, out);
      i := i + 1;
      start := i;
    }
    ghost var before := out;
    if start < |s| {
      out := out + s[start..];
    }
    EscapeRun(head, before, s, start, out);
    out := out + [Quote];
  }

  /** The switch of appendJSONString on a byte that is not plain. */
  method ControlEscape(c: Byte) returns (esc: Bytes)
    requires !Plain(c)
    ensures esc == EscapeByte(c)
  {
    if c == Quote || c == Backslash {
      esc := [Backslash, c];
    } else if c == Backspace {
      esc := [Backslash, 'b'];
    } else if c == FormFeed {
      esc := [Backslash, 'f'];
    } else if c == '\n' {
      esc := [Backslash, 'n'];
    } else if c == '\r' {
      esc := [Backslash, 'r'];
    } else if c == '\t' {
      esc := [Backslash, 't'];
    } else {
      esc := [Backslash, 'u', '0', '0', HexDigits[c as int / 16], HexDigits[c as int % 16]];
    }
  }

  /** The loop's step at a byte to escape keeps out == head + Escape(s[..start]). */
  lemma EscapeRunThenByte(head: Bytes, before: Bytes, s: Bytes, start: nat, i: nat, out: Bytes)
    requires start <= i < |s|
    requires forall k :: start <= k < i ==> Plain(s[k])
    requires before == head + Escape(s[..start])
    requires out == before + s[start..i] + EscapeByte(s[i])
    ensures out == head + Escape(s[..i + 1])
  {
    PlainEscapes();
    FlatMapRunThen(EscapeByte, s, start, i);
    var a, r, e := Escape(s[..start]), s[start..i], EscapeByte(s[i]);
    Assoc(head, a + r, e);
    Assoc(head, a, r);
  }

  /** The tail after the loop: a plain run up to the end of s. */
  lemma EscapeRun(head: Bytes, before: Bytes, s: Bytes, start: nat, out: Bytes)
    requires start <= |s|
    requires forall k :: start <= k < |s| ==> Plain(s[k])
    requires before == head + Escape(s[..start])
    requires out == before + s[start..]
    ensures out == head + Escape(s)
  {
    PlainEscapes();
    FlatMapRun(EscapeByte, s, start);
    Assoc(head, Escape(s[..start]), s[start..]);
  }

  lemma PlainEscapes()
    ensures forall b :: Plain(b) ==> EscapeByte(b) == [b]
  {
  }

  lemma Assoc(x: Bytes, y: Bytes, z: Bytes)
    ensures x + y + z == x + (y + z)
  {
  }

  // ---- The decoder (section 7 of RFC 8259) ----

  predicate IsHex(b: Byte) { '0' <= b <= '9' || 'a' <= b <= 'f' || 'A' <= b <= 'F' }

  function HexValue(b: Byte): (r: nat)
    requires IsHex(b)
    ensures r < 16
  {
    if b <= '9' then b as int - '0' as int
    else if b >= 'a' then b as int - 'a' as int + 10
    else b as int - 'A' as int + 10
  }

  /** The UTF-8 encoding of a code point of the Basic Multilingual Plane
      outside the surrogate range. */
  function Utf8(cp: nat): (r: Bytes)
    requires cp < 0x1_0000
    ensures 1 <= |r| <= 3
  {
    if cp < 0x80 then [cp as char]
    else if cp < 0x800 then [(0xC0 + cp / 64) as char, (0x80 + cp % 64) as char]
    else [(0xE0 + cp / 4096) as char, (0x80 + cp / 64 % 64) as char, (0x80 + cp % 64) as char]
  }

  /** One unit of a string body that does not begin with '"': an unescaped
      byte or an escape; its decoded bytes and its length. */
  function Unit(p: Bytes): (r: Option<(Bytes, nat)>)
    requires p != [] && p[0] != Quote
    ensures r.Some? ==> 1 <= r.value.1 <= |p|
  {
    var c := p[0];
    if c as int < 0x20 then None
    else if c != Backslash then Some(([c], 1))
    else if |p| < 2 then None
    else
      var e := p[1];
      if e == Quote || e == Backslash || e == '/' then Some(([e], 2))
      else if e == 'b' then Some(([Backspace], 2))
      else if e == 'f' then Some(([FormFeed], 2))
      else if e == 'n' then Some((['\n'], 2))
      else if e == 'r' then Some((['\r'], 2))
      else if e == 't' then Some((['\t'], 2))
      else if e == 'u' && |p| >= 6 && IsHex(p[2]) && IsHex(p[3]) && IsHex(p[4]) && IsHex(p[5]) then
        var cp := ((HexValue(p[2]) * 16 + HexValue(p[3])) * 16 + HexValue(p[4])) * 16 + HexValue(p[5]);
        if 0xD800 <= cp < 0xE000 then None else Some((Utf8(cp), 6))
      else None
  }

  /** The body of a JSON string up to its closing quote: the decoded bytes
      and what follows the quote, or None when the body is malformed. */
  function ParseBody(p: Bytes): (r: Option<(Bytes, Bytes)>)
    ensures r.Some? ==> |r.value.1| < |p|
    decreases |p|
  {
    if p == [] then None
    else if p[0] == Quote then Some(([], p[1..]))
    else
      match Unit(p)
      case None => None
      case Some((bytes, n)) =>
        match ParseBody(p[n..])
        case None => None
        case Some((more, rest)) => Some((bytes + more, rest))
  }

  /** A JSON string literal at the start of p, and what follows it. */
  function ParseString(p: Bytes): (r: Option<(Bytes, Bytes)>)
    ensures r.Some? ==> |r.value.1| < |p|
  {
    if p != [] && p[0] == Quote then ParseBody(p[1..]) else None
  }

  /** The decoder reads one escaped byte back. */
  lemma UnitOfEscape(b: Byte, more: Bytes)
    ensures var e := EscapeByte(b) + more;
      e[0] != Quote && Unit(e) == Some(([b], |EscapeByte(b)|))
  {
    if Plain(b) {
      assert EscapeByte(b) + more == [b] + more;
    } else if b in ShortEscapes {
      UnitOfShortEscape(b, more);
    } else {
      UnitOfHexEscape(b, more);
    }
  }

  lemma UnitOfShortEscape(b: Byte, more: Bytes)
    requires !Plain(b) && b in ShortEscapes
    ensures var e := [Backslash, ShortEscapes[b]] + more;
      e[0] != Quote && Unit(e) == Some(([b], 2))
  {
    var e := [Backslash, ShortEscapes[b]] + more;
    assert e[0] == Backslash && e[1] == ShortEscapes[b];
  }

  lemma UnitOfHexEscape(b: Byte, more: Bytes)
    requires !Plain(b) && b !in ShortEscapes
    ensures var e := EscapeByte(b) + more;
      e[0] != Quote && |EscapeByte(b)| == 6 && Unit(e) == Some(([b], 6))
  {
    var hi: Byte := if b as int < 0x10 then '0' else '1';
    var lo := HexDigit(b as int % 16);
    assert EscapeByte(b) == [Backslash, 'u', '0', '0', hi, lo];
    var e := EscapeByte(b) + more;
    assert e[0] == Backslash && e[1] == 'u' && e[2] == '0' && e[3] == '0' && e[4] == hi && e[5] == lo;
    assert HexValue(hi) == b as int / 16 && HexValue(lo) == b as int % 16;
    var cp := ((HexValue(e[2]) * 16 + HexValue(e[3])) * 16 + HexValue(e[4])) * 16 + HexValue(e[5]);
    assert cp == b as int;
  }

  /** The round trip: decoding an escaped string, closed by a quote, gives
      the string back and stops right after that quote. */
  lemma {:induction false} ParseBodyOfEscape(s: Bytes, rest: Bytes)
    ensures ParseBody(Escape(s) + [Quote] + rest) == Some((s, rest))
    decreases |s|
  {
    var p := Escape(s) + [Quote] + rest;
    if s == [] {
      assert p == [Quote] + rest;
    } else {
      var e := EscapeByte(s[0]);
      assert p == e + (Escape(s[1..]) + [Quote] + rest);
      UnitOfEscape(s[0], Escape(s[1..]) + [Quote] + rest);
      assert p[|e|..] == Escape(s[1..]) + [Quote] + rest;
      ParseBodyOfEscape(s[1..], rest);
      assert [s[0]] + s[1..] == s;
    }
  }

  /** Decoding what appendJSONString writes gives back exactly the input,
      and the literal ends exactly where appendJSONString stopped. */
  lemma ParseQuoted(s: Bytes, rest: Bytes)
    ensures ParseString(Quoted(s) + rest) == Some((s, rest))
  {
    var p := Quoted(s) + rest;
    assert p[1..] == Escape(s) + [Quote] + rest;
    ParseBodyOfEscape(s, rest);
  }
}
