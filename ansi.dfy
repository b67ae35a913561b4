/** The colours of the PSL encoder: ECMA-48 Select Graphic Rendition (SGR)
    control sequences, ESC '[' parameters 'm'. Output is described as a
    list of pieces, literal text and SGR sequences, so that what colour adds
    can be taken away again. */
module Ansi {
  import opened GoBytes

  const Esc: Byte := 27 as char

  /** A piece of output: bytes written as they are, or an SGR sequence with
      the given parameter bytes. */
  datatype Piece = Lit(bytes: Bytes) | Sgr(params: Bytes)

  const Reset: Piece := Sgr("0")
  const Bold: Piece := Sgr("1")
  const Faint: Piece := Sgr("90")
  const Red: Piece := Sgr("31")
  const Green: Piece := Sgr("32")
  const Yellow: Piece := Sgr("33")
  const Blue: Piece := Sgr("34")
  const Magenta: Piece := Sgr("35")
  const Cyan: Piece := Sgr("36")
  const BrightRed: Piece := Sgr("1;31")
  const BrightGreen: Piece := Sgr("1;32")
  const BrightYellow: Piece := Sgr("1;33")

  /** The bytes of SGR parameters: digits and ';'. */
  predicate IsParam(b: Byte) { '0' <= b <= '9' || b == ';' }

  predicate AllParams(s: Bytes) { forall k :: 0 <= k < |s| ==> IsParam(s[k]) }

  /** The control sequence of an SGR piece. */
  function SgrBytes(params: Bytes): (r: Bytes)
    ensures |r| == |params| + 3 && r[0] == Esc
  {
    [Esc, '['] + params + ['m']
  }

  function PieceBytes(p: Piece): Bytes {
    match p
    case Lit(b) => b
    case Sgr(params) => SgrBytes(params)
  }

  /** The bytes written for a list of pieces. */
  function Render(ps: seq<Piece>): Bytes
    decreases |ps|
  {
    if ps == [] then [] else PieceBytes(ps[0]) + Render(ps[1..])
  }

  /** The literal text of a list of pieces, the SGR sequences left out. */
  function Stripped(ps: seq<Piece>): Bytes
    decreases |ps|
  {
    if ps == [] then [] else (if ps[0].Lit? then ps[0].bytes else []) + Stripped(ps[1..])
  }

  predicate NoSgr(ps: seq<Piece>) { forall k :: 0 <= k < |ps| ==> ps[k].Lit? }

  /** Pieces whose SGR parameters are SGR parameters and whose literal text
      holds no ESC byte: their SGR sequences can be found in the bytes. */
  predicate WellFormed(ps: seq<Piece>) {
    forall k :: 0 <= k < |ps| ==>
      match ps[k]
      case Lit(b) => Esc !in b
      case Sgr(params) => AllParams(params)
  }

  lemma {:induction false} RenderAppend(a: seq<Piece>, b: seq<Piece>)
    ensures Render(a + b) == Render(a) + Render(b)
    decreases |a|
  {
    if a == [] {
      assert a + b == b;
    } else {
      assert (a + b)[1..] == a[1..] + b;
      RenderAppend(a[1..], b);
    }
  }

  lemma {:induction false} StrippedAppend(a: seq<Piece>, b: seq<Piece>)
    ensures Stripped(a + b) == Stripped(a) + Stripped(b)
    decreases |a|
  {
    if a == [] {
      assert a + b == b;
    } else {
      assert (a + b)[1..] == a[1..] + b;
      StrippedAppend(a[1..], b);
    }
  }

  /** Without SGR pieces the rendering is the literal text. */
  lemma {:induction false} RenderOfNoSgr(ps: seq<Piece>)
    requires NoSgr(ps)
    ensures Render(ps) == Stripped(ps)
    decreases |ps|
  {
    if ps != [] {
      RenderOfNoSgr(ps[1..]);
    }
  }

  /** Dropping an SGR piece leaves the literal text as it was. */
  lemma DropSgr(a: seq<Piece>, p: Piece, b: seq<Piece>)
    requires p.Sgr?
    ensures Stripped(a + [p] + b) == Stripped(a + b)
  {
    StrippedAppend(a + [p], b);
    StrippedAppend(a, [p]);
    StrippedAppend(a, b);
    assert Stripped([p]) == [] + Stripped([]);
  }

  /** [sgr1, x, sgr2] reads as [x]. */
  lemma DropFirst(p: Piece, x: Piece, q: Piece)
    requires p.Sgr? && q.Sgr?
    ensures Stripped([p, x, q]) == Stripped([x])
  {
    assert [p, x, q] == [] + [p] + [x, q];
    DropSgr([], p, [x, q]);
    assert [] + [x, q] == [x] + [q] + [];
    DropSgr([x], q, []);
    assert [x] + [] == [x];
  }

  /** [sgr1, x, sgr2, y] reads as [x, y]. */
  lemma DropTwo(p: Piece, x: Piece, q: Piece, y: Piece)
    requires p.Sgr? && q.Sgr?
    ensures Stripped([p, x, q, y]) == Stripped([x, y])
  {
    assert [p, x, q, y] == [] + [p] + [x, q, y];
    DropSgr([], p, [x, q, y]);
    assert [] + [x, q, y] == [x] + [q] + [y];
    DropSgr([x], q, [y]);
    assert [x] + [y] == [x, y];
  }

  lemma RenderOf1(a: Piece)
    ensures Render([a]) == PieceBytes(a)
  {
    assert Render([a]) == PieceBytes(a) + Render([]);
  }

  lemma RenderOf2(a: Piece, b: Piece)
    ensures Render([a, b]) == PieceBytes(a) + PieceBytes(b)
  {
    assert [a, b] == [a] + [b];
    RenderAppend([a], [b]);
    RenderOf1(a);
    RenderOf1(b);
  }

  lemma RenderOf3(a: Piece, b: Piece, c: Piece)
    ensures Render([a, b, c]) == PieceBytes(a) + PieceBytes(b) + PieceBytes(c)
  {
    assert [a, b, c] == [a, b] + [c];
    RenderAppend([a, b], [c]);
    RenderOf2(a, b);
    RenderOf1(c);
  }

  lemma RenderOf4(a: Piece, b: Piece, c: Piece, d: Piece)
    ensures Render([a, b, c, d]) == PieceBytes(a) + PieceBytes(b) + PieceBytes(c) + PieceBytes(d)
  {
    assert [a, b, c, d] == [a, b, c] + [d];
    RenderAppend([a, b, c], [d]);
    RenderOf3(a, b, c);
    RenderOf1(d);
  }

  /** Appending the rendering of more pieces keeps out == buf + Render(...). */
  lemma Extend(buf: Bytes, head: seq<Piece>, more: seq<Piece>, before: Bytes, out: Bytes)
    requires before == buf + Render(head)
    requires out == before + Render(more)
    ensures out == buf + Render(head + more)
  {
    RenderAppend(head, more);
    Concat3(buf, Render(head), Render(more));
  }

  lemma Concat3(a: Bytes, b: Bytes, c: Bytes)
    ensures a + b + c == a + (b + c)
  {
  }

  lemma NoSgrAppend(a: seq<Piece>, b: seq<Piece>)
    requires NoSgr(a) && NoSgr(b)
    ensures NoSgr(a + b)
  {
    assert forall k :: |a| <= k < |a + b| ==> (a + b)[k] == b[k - |a|];
  }

  lemma WellFormedAppend(a: seq<Piece>, b: seq<Piece>)
    requires WellFormed(a) && WellFormed(b)
    ensures WellFormed(a + b)
  {
    assert forall k :: |a| <= k < |a + b| ==> (a + b)[k] == b[k - |a|];
  }

  /** a is b with colour: the same literal text, b without SGR pieces, and
      both well formed. */
  predicate ColourOf(a: seq<Piece>, b: seq<Piece>) {
    Stripped(a) == Stripped(b) && NoSgr(b) && WellFormed(a) && WellFormed(b)
  }

  lemma ColourOfAppend(a: seq<Piece>, b: seq<Piece>, a': seq<Piece>, b': seq<Piece>)
    requires ColourOf(a, b) && ColourOf(a', b')
    ensures ColourOf(a + a', b + b')
  {
    StrippedAppend(a, a');
    StrippedAppend(b, b');
    NoSgrAppend(b, b');
    WellFormedAppend(a, a');
    WellFormedAppend(b, b');
  }

  /** Once colour is stripped from the rendered bytes, they are the bytes
      written without colour. */
  lemma StripColourOf(a: seq<Piece>, b: seq<Piece>)
    requires ColourOf(a, b)
    ensures StripSgr(Render(a)) == Render(b)
  {
    StripSgrOfRender(a);
    RenderOfNoSgr(b);
  }

  // ---- Stripping SGR sequences from bytes ----

  /** The number of parameter bytes s starts with. */
  function ParamRun(s: Bytes): (r: nat)
    ensures r <= |s|
    decreases |s|
  {
    if s != [] && IsParam(s[0]) then 1 + ParamRun(s[1..]) else 0
  }

  /** The length of the SGR sequence s starts with, or 0 when it starts
      with none. */
  function SgrLength(s: Bytes): (r: nat)
    ensures r <= |s|
  {
    if |s| >= 2 && s[0] == Esc && s[1] == '[' then
      var j := 2 + ParamRun(s[2..]);
      if j < |s| && s[j] == 'm' then j + 1 else 0
    else 0
  }

  /** s with every SGR sequence removed. */
  function StripSgr(s: Bytes): (r: Bytes)
    decreases |s|
  {
    if s == [] then []
    else if s[0] == Esc && SgrLength(s) > 0 then StripSgr(s[SgrLength(s)..])
    else [s[0]] + StripSgr(s[1..])
  }

  lemma {:induction false} ParamRunOf(params: Bytes, rest: Bytes)
    requires AllParams(params)
    ensures ParamRun(params + ['m'] + rest) == |params|
    decreases |params|
  {
    if params == [] {
      assert (params + ['m'] + rest)[0] == 'm';
    } else {
      assert (params + ['m'] + rest)[1..] == params[1..] + ['m'] + rest;
      ParamRunOf(params[1..], rest);
    }
  }

  /** An SGR sequence is taken away whole. */
  lemma StripSgrOfSgr(params: Bytes, rest: Bytes)
    requires AllParams(params)
    ensures StripSgr(SgrBytes(params) + rest) == StripSgr(rest)
  {
    var s := SgrBytes(params) + rest;
    assert s[2..] == params + ['m'] + rest;
    ParamRunOf(params, rest);
    assert s[2 + |params|] == 'm';
    assert SgrLength(s) == |params| + 3;
    assert s[|params| + 3..] == rest;
  }

  /** A byte other than ESC is kept. */
  lemma StripSgrOfByte(s: Bytes)
    requires s != [] && s[0] != Esc
    ensures StripSgr(s) == [s[0]] + StripSgr(s[1..])
  {
  }

  /** Text without ESC is kept whole. */
  lemma {:induction false} StripSgrOfLit(lit: Bytes, rest: Bytes)
    requires Esc !in lit
    ensures StripSgr(lit + rest) == lit + StripSgr(rest)
    decreases |lit|
  {
    if lit == [] {
      assert lit + rest == rest;
    } else {
      var s := lit + rest;
      assert s[0] == lit[0] && lit[0] in lit;
      StripSgrOfByte(s);
      var tail := lit[1..];
      assert Esc !in tail by {
        assert forall k :: 0 <= k < |tail| ==> tail[k] == lit[k + 1];
      }
      assert s[1..] == tail + rest;
      StripSgrOfLit(tail, rest);
      assert lit == [lit[0]] + tail;
    }
  }

  /** Removing the SGR sequences from the rendered bytes gives the literal
      text of the pieces. */
  lemma {:induction false} StripSgrOfRender(ps: seq<Piece>)
    requires WellFormed(ps)
    ensures StripSgr(Render(ps)) == Stripped(ps)
    decreases |ps|
  {
    if ps != [] {
      assert WellFormed(ps[1..]) by {
        assert forall k :: 0 <= k < |ps| - 1 ==> ps[1..][k] == ps[k + 1];
      }
      StripSgrOfRender(ps[1..]);
      var rest := Render(ps[1..]);
      match ps[0]
      case Lit(b) =>
        StripSgrOfLit(b, rest);
      case Sgr(params) =>
        StripSgrOfSgr(params, rest);
    }
  }
}
