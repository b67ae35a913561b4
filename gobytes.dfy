/** Go's byte strings and the few `strings`, `bytes` and `strconv` operations
    the logport core relies on, modelled byte by byte. */
module GoBytes {

  /** A Go byte. A Go `string` or `[]byte` is a sequence of these; a character
      literal below 256 stands for the byte with that value. */
  type Byte = c: char | c as int < 256 witness ' '
  type Bytes = seq<Byte>

  /** A value that may be absent (a nil Go reference or a failed parse). */
  datatype Option<T> = None | Some(value: T)

  /** Go's fixed-width integers. */
  type Int8 = i: int | -0x80 <= i < 0x80
  type Int64 = i: int | -0x8000_0000_0000_0000 <= i < 0x8000_0000_0000_0000
  type Uint64 = i: int | 0 <= i < 0x1_0000_0000_0000_0000

  predicate IsPrefix(p: Bytes, s: Bytes) { |p| <= |s| && s[..|p|] == p }
  predicate IsSuffix(p: Bytes, s: Bytes) { |p| <= |s| && s[|s| - |p|..] == p }

  /** The ASCII bytes `unicode.IsSpace` accepts: tab, newline, vertical tab,
      form feed, carriage return and space. */
  const Whitespace: set<Byte> := {' ', '\t', '\n', 11 as char, 12 as char, '\r'}

  /** strings.TrimLeft(s, cutset): drops the longest prefix made of bytes in cut. */
  function TrimLeft(s: Bytes, cut: set<Byte>): (r: Bytes)
    ensures IsSuffix(r, s)
    ensures forall k :: 0 <= k < |s| - |r| ==> s[k] in cut
    ensures r == [] || r[0] !in cut
    decreases |s|
  {
    if s != [] && s[0] in cut then
      var r := TrimLeft(s[1..], cut);
      assert forall k :: 1 <= k < |s| - |r| ==> s[k] == s[1..][k - 1];
      r
    else s
  }

  /** strings.TrimRight(s, cutset): drops the longest suffix made of bytes in cut. */
  function TrimRight(s: Bytes, cut: set<Byte>): (r: Bytes)
    ensures IsPrefix(r, s)
    ensures forall k :: |r| <= k < |s| ==> s[k] in cut
    ensures r == [] || r[|r| - 1] !in cut
    decreases |s|
  {
    if s != [] && s[|s| - 1] in cut then
      var r := TrimRight(s[..|s| - 1], cut);
      assert forall k :: |r| <= k < |s| - 1 ==> s[k] == s[..|s| - 1][k];
      r
    else s
  }

  /** strings.TrimSpace on ASCII whitespace. */
  function TrimSpace(s: Bytes): (r: Bytes)
    ensures |r| <= |s|
    ensures r == [] || (r[0] !in Whitespace && r[|r| - 1] !in Whitespace)
    ensures (forall k :: 0 <= k < |s| ==> s[k] in Whitespace) <==> r == []
  {
    var l := TrimLeft(s, Whitespace);
    var r := TrimRight(l, Whitespace);
    assert r != [] ==> r[0] == l[0];
    assert r == [] ==> l == [];
    r
  }

  /** strings.TrimPrefix. */
  function TrimPrefix(s: Bytes, p: Bytes): (r: Bytes)
    ensures IsSuffix(r, s)
    ensures IsPrefix(p, s) <==> p + r == s
  {
    if IsPrefix(p, s) then
      assert s == s[..|p|] + s[|p|..];
      s[|p|..]
    else
      s
  }

  /** strings.IndexAny with a cutset, bytes.IndexByte and strings.Index for a
      one-byte needle: the least index holding a byte of set, or -1. */
  function IndexAny(s: Bytes, set_: set<Byte>): (r: int)
    ensures -1 <= r < |s|
    ensures r >= 0 ==> s[r] in set_
    ensures forall k :: 0 <= k < |s| && (r < 0 || k < r) ==> s[k] !in set_
    decreases |s|
  {
    if s == [] then -1
    else if s[0] in set_ then 0
    else
      var r := IndexAny(s[1..], set_);
      assert forall k :: 1 <= k < |s| ==> s[k] == s[1..][k - 1];
      if r < 0 then -1 else r + 1
  }

  /** toLowerASCII: maps 'A'..'Z' to 'a'..'z' and leaves every other byte alone. */
  function ToLowerASCII(b: Byte): (r: Byte)
    ensures 'A' <= b <= 'Z' ==> r as int == b as int + 32
    ensures !('A' <= b <= 'Z') ==> r == b
    ensures !('A' <= r <= 'Z')
  {
    if 'A' <= b <= 'Z' then (b as int + 32) as char else b
  }

  /** strings.ToLower on ASCII. */
  function ToLower(s: Bytes): (r: Bytes)
    ensures |r| == |s|
    ensures forall k :: 0 <= k < |s| ==> r[k] == ToLowerASCII(s[k])
  {
    seq(|s|, k requires 0 <= k < |s| => ToLowerASCII(s[k]))
  }

  predicate IsDigit(b: Byte) { '0' <= b <= '9' }

  function DigitChar(d: nat): (r: Byte)
    requires d < 10
    ensures IsDigit(r) && r as int - '0' as int == d
  {
    ('0' as int + d) as char
  }

  /** The decimal digits of n, most significant first, without leading zeros
      (strconv.AppendUint). */
  function NatDigits(n: nat): (r: Bytes)
    ensures 1 <= |r|
    ensures forall k :: 0 <= k < |r| ==> IsDigit(r[k])
    ensures |r| > 1 ==> r[0] != '0'
    decreases n
  {
    if n < 10 then [DigitChar(n)] else NatDigits(n / 10) + [DigitChar(n % 10)]
  }

  /** The value of a run of decimal digits, read most significant first. */
  function DigitsValue(ds: Bytes): nat
    requires forall k :: 0 <= k < |ds| ==> IsDigit(ds[k])
    decreases |ds|
  {
    if ds == [] then 0
    else
      assert IsDigit(ds[|ds| - 1]);
      DigitsValue(ds[..|ds| - 1]) * 10 + (ds[|ds| - 1] as int - '0' as int)
  }

  lemma {:induction false} DigitsValueOfNatDigits(n: nat)
    ensures DigitsValue(NatDigits(n)) == n
    decreases n
  {
    if n >= 10 {
      var ds := NatDigits(n);
      assert ds[..|ds| - 1] == NatDigits(n / 10);
      DigitsValueOfNatDigits(n / 10);
    }
  }

  /** strconv.AppendInt(_, i, 10) and fmt's %d: an optional '-' and the digits. */
  function Decimal(i: int): (r: Bytes)
    ensures i < 0 <==> (r != [] && r[0] == '-')
    ensures i >= 0 ==> r == NatDigits(i)
    ensures i < 0 ==> r[1..] == NatDigits(-i)
  {
    if i < 0 then ['-'] + NatDigits(-i) else NatDigits(i)
  }

  /** strings.Join. */
  function Join(parts: seq<Bytes>, sep: Bytes): (r: Bytes)
    ensures parts == [] ==> r == []
    ensures |parts| == 1 ==> r == parts[0]
    decreases |parts|
  {
    if parts == [] then []
    else if |parts| == 1 then parts[0]
    else parts[0] + sep + Join(parts[1..], sep)
  }

  /** The bytes f writes for each byte of s, one after another: the shape of
      every byte-by-byte encoder of the core. */
  function FlatMap(f: Byte -> Bytes, s: Bytes): Bytes
    decreases |s|
  {
    if s == [] then [] else f(s[0]) + FlatMap(f, s[1..])
  }

  lemma {:induction false} FlatMapAppend(f: Byte -> Bytes, a: Bytes, b: Bytes)
    ensures FlatMap(f, a + b) == FlatMap(f, a) + FlatMap(f, b)
    decreases |a|
  {
    if a == [] {
      assert a + b == b;
    } else {
      assert (a + b)[1..] == a[1..] + b;
      FlatMapAppend(f, a[1..], b);
    }
  }

  /** Bytes that f copies unchanged pass through FlatMap unchanged. */
  lemma {:induction false} FlatMapFixed(f: Byte -> Bytes, s: Bytes)
    requires forall k :: 0 <= k < |s| ==> f(s[k]) == [s[k]]
    ensures FlatMap(f, s) == s
    decreases |s|
  {
    if s != [] {
      FlatMapFixed(f, s[1..]);
    }
  }

  /** The cursor form of FlatMap: the encoding of s[..j] is that of s[..i],
      then of s[i..j]. */
  lemma FlatMapSplit(f: Byte -> Bytes, s: Bytes, i: nat, j: nat)
    requires i <= j <= |s|
    ensures FlatMap(f, s[..j]) == FlatMap(f, s[..i]) + FlatMap(f, s[i..j])
  {
    assert s[..j] == s[..i] + s[i..j];
    FlatMapAppend(f, s[..i], s[i..j]);
  }

  lemma FlatMapOne(f: Byte -> Bytes, b: Byte)
    ensures FlatMap(f, [b]) == f(b)
  {
    assert FlatMap(f, [b]) == f(b) + FlatMap(f, []);
  }

  /** A cursor loop's step: after a run s[start..i] that f copies, the byte
      at i is encoded. */
  lemma FlatMapRunThen(f: Byte -> Bytes, s: Bytes, start: nat, i: nat)
    requires start <= i < |s|
    requires forall k :: start <= k < i ==> f(s[k]) == [s[k]]
    ensures FlatMap(f, s[..i + 1]) == FlatMap(f, s[..start]) + s[start..i] + f(s[i])
  {
    FlatMapSplit(f, s, start, i);
    FlatMapSplit(f, s, i, i + 1);
    assert s[i..i + 1] == [s[i]];
    FlatMapOne(f, s[i]);
    FlatMapFixed(f, s[start..i]);
  }

  /** A cursor loop's end: a run s[start..] that f copies. */
  lemma FlatMapRun(f: Byte -> Bytes, s: Bytes, start: nat)
    requires start <= |s|
    requires forall k :: start <= k < |s| ==> f(s[k]) == [s[k]]
    ensures FlatMap(f, s) == FlatMap(f, s[..start]) + s[start..]
  {
    FlatMapSplit(f, s, start, |s|);
    assert s[..|s|] == s && s[start..|s|] == s[start..];
    FlatMapFixed(f, s[start..]);
  }

  /** Every byte f writes satisfies ok, so every byte FlatMap writes does. */
  lemma {:induction false} FlatMapKeeps(f: Byte -> Bytes, ok: Byte -> bool, s: Bytes)
    requires forall b: Byte, k :: 0 <= k < |f(b)| ==> ok(f(b)[k])
    ensures forall k :: 0 <= k < |FlatMap(f, s)| ==> ok(FlatMap(f, s)[k])
    decreases |s|
  {
    if s != [] {
      FlatMapKeeps(f, ok, s[1..]);
      var e, r := f(s[0]), FlatMap(f, s[1..]);
      assert FlatMap(f, s) == e + r;
      assert forall k :: |e| <= k < |e + r| ==> (e + r)[k] == r[k - |e|];
    }
  }

  const HexDigits: Bytes := "0123456789abcdef"

  /** The lower-case hexadecimal digit for d. */
  function HexDigit(d: nat): (r: Byte)
    requires d < 16
    ensures r == HexDigits[d]
  {
    if d < 10 then ('0' as int + d) as char else ('a' as int + d - 10) as char
  }

  /** The control bytes strconv.Quote writes as a C escape, and its letter. */
  const CEscapes: map<Byte, Byte> := map[
    7 as char := 'a', 8 as char := 'b', 12 as char := 'f', '\n' := 'n',
    '\r' := 'r', '\t' := 't', 11 as char := 'v']

  /** What strconv.Quote writes for one byte: a quote or a backslash gets a
      backslash in front, printable ASCII is copied, a control byte with a
      C escape gets it, and any other control byte and DEL become \xHH in
      lower-case hex. A byte from 0x80 up is copied as it is, which is what
      Quote does for the bytes of a printable UTF-8 rune. */
  function QuoteByte(b: Byte): (r: Bytes)
    ensures |r| >= 1
  {
    if b == '"' || b == '\\' then ['\\', b]
    else if 0x20 <= b as int < 0x7f || b as int >= 0x80 then [b]
    else if b in CEscapes then ['\\', CEscapes[b]]
    else ['\\', 'x', if b as int < 0x10 then '0' else if b as int < 0x20 then '1' else '7', HexDigit(b as int % 16)]
  }

  /** strconv.Quote: the quoted Go string literal for s. */
  function Quote(s: Bytes): (r: Bytes)
    ensures |r| >= 2 && r[0] == '"' && r[|r| - 1] == '"'
  {
    ['"'] + FlatMap(QuoteByte, s) + ['"']
  }

  /** A byte Quote copies as it is. */
  predicate Printable(b: Byte) { (0x20 <= b as int < 0x7f || b as int >= 0x80) && b != '"' && b != '\\' }

  /** A control byte or DEL, which Quote never writes. */
  predicate Control(b: Byte) { b as int < 0x20 || b as int == 0x7f }

  /** Quote only adds the surrounding quotes to a string of bytes it copies. */
  lemma QuotePrintable(s: Bytes)
    requires forall k :: 0 <= k < |s| ==> Printable(s[k])
    ensures Quote(s) == ['"'] + s + ['"']
  {
    assert forall b :: Printable(b) ==> QuoteByte(b) == [b];
    FlatMapFixed(QuoteByte, s);
  }

  /** The literal Quote returns holds no control byte: control bytes in s
      come out escaped. */
  lemma QuoteHasNoControl(s: Bytes)
    ensures forall k :: 0 <= k < |Quote(s)| ==> !Control(Quote(s)[k])
  {
    var notControl := (b: Byte) => !Control(b);
    assert forall b: Byte, k :: 0 <= k < |QuoteByte(b)| ==> notControl(QuoteByte(b)[k]);
    FlatMapKeeps(QuoteByte, notControl, s);
    var body := FlatMap(QuoteByte, s);
    assert forall k :: 0 <= k < |body| ==> !Control(body[k]);
    assert forall k :: 1 <= k < |body| + 1 ==> Quote(s)[k] == body[k - 1];
  }

  /** The two loops of levelFromToken: advance start past bytes of cut,
      then pull end back past them; token[start:end] is what is left. */
  method NarrowPast(token: Bytes, cut: set<Byte>) returns (start: nat, end: nat)
    ensures start <= end <= |token|
    ensures token[start..end] == TrimRight(TrimLeft(token, cut), cut)
  {
    start, end := 0, |token|;
    while start < end && token[start] in cut
      invariant 0 <= start <= end == |token|
      invariant forall k :: 0 <= k < start ==> token[k] in cut
    {
      start := start + 1;
    }
    while end > start && token[end - 1] in cut
      invariant start <= end <= |token|
      invariant forall k :: end <= k < |token| ==> token[k] in cut
    {
      end := end - 1;
    }
    NarrowedIsTrimmed(token, cut, start, end);
  }

  lemma NarrowedIsTrimmed(token: Bytes, cut: set<Byte>, start: nat, end: nat)
    requires start <= end <= |token|
    requires forall k :: 0 <= k < start ==> token[k] in cut
    requires start == |token| || token[start] !in cut
    requires forall k :: end <= k < |token| ==> token[k] in cut
    requires end == start || token[end - 1] !in cut
    ensures token[start..end] == TrimRight(TrimLeft(token, cut), cut)
  {
    TrimLeftAt(token, cut, start);
    TrimRightOfSlice(token, cut, start, end);
  }

  lemma TrimRightOfSlice(token: Bytes, cut: set<Byte>, start: nat, end: nat)
    requires start <= end <= |token|
    requires forall k :: end <= k < |token| ==> token[k] in cut
    requires end == start || token[end - 1] !in cut
    ensures TrimRight(token[start..], cut) == token[start..end]
  {
    var l := token[start..];
    assert forall k :: end - start <= k < |l| ==> l[k] in cut;
    TrimRightAt(l, cut, end - start);
    assert l[..end - start] == token[start..end];
  }

  /** TrimLeft stops at the first byte outside cut. */
  lemma {:induction false} TrimLeftAt(s: Bytes, cut: set<Byte>, i: nat)
    requires i <= |s| && (i == |s| || s[i] !in cut)
    requires forall k :: 0 <= k < i ==> s[k] in cut
    ensures TrimLeft(s, cut) == s[i..]
    decreases i
  {
    if i > 0 {
      assert s[1..][i - 1..] == s[i..];
      TrimLeftAt(s[1..], cut, i - 1);
    }
  }

  /** TrimRight stops at the last byte outside cut. */
  lemma {:induction false} TrimRightAt(s: Bytes, cut: set<Byte>, j: nat)
    requires j <= |s| && (j == 0 || s[j - 1] !in cut)
    requires forall k :: j <= k < |s| ==> s[k] in cut
    ensures TrimRight(s, cut) == s[..j]
    decreases |s| - j
  {
    if j < |s| {
      var t := s[..|s| - 1];
      assert t[..j] == s[..j];
      TrimRightAt(t, cut, j);
    }
  }

  /** IndexAny finds the first byte of set. */
  lemma IndexAnyAt(s: Bytes, set_: set<Byte>, i: nat)
    requires i < |s| && s[i] in set_
    requires forall k :: 0 <= k < i ==> s[k] !in set_
    ensures IndexAny(s, set_) == i
  {
  }

}
