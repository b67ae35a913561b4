/** The io.Writer bridge of logport.go: WriteToLogger and the level-pinned
    writer cut a byte buffer into lines, classify each line and make one
    Logp call per line. The logger is modelled by the sequence of calls it
    receives. */
module Bridge {
  import opened GoBytes
  import opened Levels
  import opened Classify

  /** One logger.Logp(level, msg) call. */
  datatype Call = Call(level: Level, msg: Bytes)

  /** The level a levelPinnedWriter pins every entry to, if any. */
  datatype Override = NoOverride | Pinned(level: Level)

  const Newline: set<Byte> := {'\n'}
  const CarriageReturn: set<Byte> := {'\r'}

  /** The lines writeBytesToLogger visits: the pieces of p between '\n'
      bytes; a '\n' at the very end closes the last line and opens none. */
  function Lines(p: Bytes): (r: seq<Bytes>)
    ensures p == [] <==> r == []
    ensures forall i, k :: 0 <= i < |r| && 0 <= k < |r[i]| ==> r[i][k] != '\n'
    decreases |p|
  {
    if p == [] then []
    else
      var idx := IndexAny(p, Newline);
      if idx < 0 then [p] else [p[..idx]] + Lines(p[idx + 1..])
  }

  /** The '\n' that ends p, if p ends with one. */
  function FinalNewline(p: Bytes): Bytes {
    if p != [] && p[|p| - 1] == '\n' then "\n" else []
  }

  /** Lines loses nothing but the separators: joining the lines with '\n'
      gives p back, up to a final '\n'. */
  lemma {:induction false} JoinLines(p: Bytes)
    ensures Join(Lines(p), "\n") + FinalNewline(p) == p
    decreases |p|, 1
  {
    if p != [] {
      var idx := IndexAny(p, Newline);
      if idx >= 0 {
        JoinLinesAt(p, idx);
      }
    }
  }

  /** JoinLines for a p whose first '\n' is at idx. */
  lemma {:induction false} JoinLinesAt(p: Bytes, idx: nat)
    requires idx < |p| && idx == IndexAny(p, Newline)
    ensures Join(Lines(p), "\n") + FinalNewline(p) == p
    decreases |p|, 0
  {
    var line, rest := p[..idx], p[idx + 1..];
    LinesAt(p, idx);
    SplitAt(p, idx);
    if rest != [] {
      JoinLines(rest);
      JoinCons(line, Lines(rest), "\n");
      FinalNewlineOfSuffix(p, idx + 1);
      Assoc4(line, "\n", Join(Lines(rest), "\n"), FinalNewline(rest));
    }
  }

  lemma Assoc4(a: Bytes, b: Bytes, c: Bytes, d: Bytes)
    ensures a + b + c + d == a + b + (c + d)
  {
  }

  lemma FinalNewlineOfSuffix(p: Bytes, i: nat)
    requires i < |p|
    ensures FinalNewline(p) == FinalNewline(p[i..])
  {
  }

  /** The first line of p is cut at the first '\n'. */
  lemma LinesAt(p: Bytes, idx: nat)
    requires idx < |p| && idx == IndexAny(p, Newline)
    ensures Lines(p) == [p[..idx]] + Lines(p[idx + 1..])
  {
  }

  lemma JoinCons(a: Bytes, l: seq<Bytes>, sep: Bytes)
    requires l != []
    ensures Join([a] + l, sep) == a + sep + Join(l, sep)
  {
    assert ([a] + l)[1..] == l;
  }

  lemma SplitAt(p: Bytes, idx: nat)
    requires idx < |p|
    ensures p == p[..idx] + [p[idx]] + p[idx + 1..]
  {
  }

  /** What writeBytesToLogger does with one line: the call it makes, if any.
      Trailing '\r' bytes are dropped, a blank line makes no call, an
      override replaces the classified level, and an empty classified
      message falls back to the trimmed line. */
  function LineCall(line: Bytes, override: Override): (r: seq<Call>)
    ensures |r| <= 1
    ensures r == [] <==> TrimSpace(TrimRight(line, CarriageReturn)) == []
    ensures r != [] ==> r[0].msg != [] && IsSuffix(r[0].msg, TrimSpace(TrimRight(line, CarriageReturn)))
    ensures r != [] && override.Pinned? ==> r[0].level == override.level
    ensures r != [] && override.NoOverride? ==> r[0].level != Disabled
  {
    var raw := TrimRight(line, CarriageReturn);
    var t := TrimSpace(raw);
    if t == [] then [] else Emit(ClassifyLogLine(raw), t, override)
  }

  /** The call for a line classified as (level, msg) whose trimmed text is
      t: the override's level, and t when msg is empty. */
  function Emit(classified: (Level, Bytes), t: Bytes, override: Override): (r: seq<Call>)
    ensures |r| <= 1
    ensures r == [] <==> classified.1 == [] && t == []
    ensures r != [] ==> r[0].msg != []
    ensures r != [] && IsSuffix(classified.1, t) ==> IsSuffix(r[0].msg, t)
    ensures r != [] && override.Pinned? ==> r[0].level == override.level
    ensures r != [] && override.NoOverride? ==> r[0].level == classified.0
  {
    var level := if override.Pinned? then override.level else classified.0;
    var msg := if classified.1 == [] then t else classified.1;
    assert IsSuffix(t, t);
    if msg == [] then [] else [Call(level, msg)]
  }

  /** LineCall for a fixed override, as a function of the line. */
  function LineWriter(override: Override): Bytes -> seq<Call> {
    line => LineCall(line, override)
  }

  /** f applied to every line, in order. */
  function MapLines(lines: seq<Bytes>, f: Bytes -> seq<Call>): (r: seq<seq<Call>>)
    ensures |r| == |lines|
    ensures forall i :: 0 <= i < |lines| ==> r[i] == f(lines[i])
  {
    seq(|lines|, i requires 0 <= i < |lines| => f(lines[i]))
  }

  /** The calls of several lines, one line after the other. */
  function Flatten(outs: seq<seq<Call>>): seq<Call>
    decreases |outs|
  {
    if outs == [] then [] else outs[0] + Flatten(outs[1..])
  }

  /** The calls made for a run of lines, in order. */
  function CallsOf(lines: seq<Bytes>, override: Override): seq<Call> {
    Flatten(MapLines(lines, LineWriter(override)))
  }

  /** The calls writeBytesToLogger(logger, p, override) makes. */
  function Calls(p: Bytes, override: Override): seq<Call> {
    CallsOf(Lines(p), override)
  }

  /** writeBytesToLogger: the loop that shrinks rest one line at a time. */
  method WriteBytesToLogger(p: Bytes, override: Override) returns (calls: seq<Call>)
    ensures calls == Calls(p, override)
  {
    var rest := p;
    calls := [];
    while |rest| > 0
      invariant calls + Calls(rest, override) == Calls(p, override)
      decreases |rest|
    {
      var line := rest;
      var idx := IndexAny(line, Newline);
      ghost var before := rest;
      if idx >= 0 {
        line := line[..idx];
        rest := rest[idx + 1..];
      } else {
        rest := [];
      }
      CallsStep(before, idx, line, rest, override);
      var call := LogLine(line, override);
      AppendAssoc(calls, call, Calls(rest, override));
      calls := calls + call;
    }
  }

  /** The body of writeBytesToLogger's loop for one line: the Logp call it
      makes, if any. */
  method LogLine(line: Bytes, override: Override) returns (call: seq<Call>)
    ensures call == LineCall(line, override)
  {
    var raw := TrimRight(line, CarriageReturn);
    if TrimSpace(raw) == [] {
      return [];
    }
    var classified := ClassifyLogLine(raw);
    var level, msg := classified.0, classified.1;
    if override.Pinned? {
      level := override.level;
    }
    if msg == [] {
      msg := TrimSpace(raw);
    }
    if msg == [] {
      return [];
    }
    return [Call(level, msg)];
  }

  lemma AppendAssoc(a: seq<Call>, b: seq<Call>, c: seq<Call>)
    ensures a + b + c == a + (b + c)
  {
  }

  /** One turn of writeBytesToLogger's loop: the first line is logged
      first, then the rest. */
  lemma CallsStep(p: Bytes, idx: int, line: Bytes, rest: Bytes, override: Override)
    requires p != [] && idx == IndexAny(p, Newline)
    requires idx >= 0 ==> line == p[..idx] && rest == p[idx + 1..]
    requires idx < 0 ==> line == p && rest == []
    ensures Calls(p, override) == LineCall(line, override) + Calls(rest, override)
  {
    if idx >= 0 {
      LinesAt(p, idx);
    } else {
      assert Lines(p) == [line] + Lines(rest);
    }
    CallsOfCons(line, Lines(rest), override);
  }

  lemma MapLinesCons(line: Bytes, lines: seq<Bytes>, f: Bytes -> seq<Call>)
    ensures MapLines([line] + lines, f) == [f(line)] + MapLines(lines, f)
  {
    var l := MapLines([line] + lines, f);
    var r := [f(line)] + MapLines(lines, f);
    forall i | 0 <= i < |l| ensures l[i] == r[i] {
      if i > 0 {
        assert ([line] + lines)[i] == lines[i - 1];
      }
    }
  }

  lemma MapLinesAppend(a: seq<Bytes>, b: seq<Bytes>, f: Bytes -> seq<Call>)
    ensures MapLines(a + b, f) == MapLines(a, f) + MapLines(b, f)
  {
    var l := MapLines(a + b, f);
    var r := MapLines(a, f) + MapLines(b, f);
    forall i | 0 <= i < |l| ensures l[i] == r[i] {
      if i >= |a| {
        assert (a + b)[i] == b[i - |a|];
      }
    }
  }

  lemma FlattenCons(o: seq<Call>, outs: seq<seq<Call>>)
    ensures Flatten([o] + outs) == o + Flatten(outs)
  {
    assert ([o] + outs)[1..] == outs;
  }

  lemma {:induction false} FlattenAppend(a: seq<seq<Call>>, b: seq<seq<Call>>)
    ensures Flatten(a + b) == Flatten(a) + Flatten(b)
    decreases |a|
  {
    if a == [] {
      assert a + b == b;
    } else {
      FlattenCons(a[0], a[1..] + b);
      assert a + b == [a[0]] + (a[1..] + b);
      FlattenAppend(a[1..], b);
      AppendAssoc(a[0], Flatten(a[1..]), Flatten(b));
    }
  }

  /** Flattening outcomes of one call each keeps one call per outcome. */
  lemma {:induction false} FlattenSingles(outs: seq<seq<Call>>)
    requires forall i :: 0 <= i < |outs| ==> |outs[i]| == 1
    ensures |Flatten(outs)| == |outs|
    ensures forall i :: 0 <= i < |outs| ==> Flatten(outs)[i] == outs[i][0]
    decreases |outs|
  {
    if outs != [] {
      FlattenSingles(outs[1..]);
    }
  }

  /** WriteToLogger(logger, p): the byte count it reports and the calls it
      makes; hasLogger is false for a nil logger. */
  method WriteToLogger(hasLogger: bool, p: Bytes) returns (n: int, calls: seq<Call>)
    ensures n == |p|
    ensures calls == if hasLogger then Calls(p, NoOverride) else []
  {
    if |p| == 0 {
      return 0, [];
    }
    if !hasLogger {
      return |p|, [];
    }
    calls := WriteBytesToLogger(p, NoOverride);
    n := |p|;
  }

  /** levelPinnedWriter{logger, level}.Write(p), the writer behind
      LogLoggerWithLevel. */
  method PinnedWrite(hasLogger: bool, level: Level, p: Bytes) returns (n: int, calls: seq<Call>)
    ensures n == |p|
    ensures calls == if hasLogger then Calls(p, Pinned(level)) else []
  {
    if |p| == 0 {
      return 0, [];
    }
    if !hasLogger {
      return |p|, [];
    }
    calls := WriteBytesToLogger(p, Pinned(level));
    n := |p|;
  }

  /** A line that makes no call: blank once trailing '\r' bytes are dropped. */
  predicate Blank(line: Bytes) {
    TrimSpace(TrimRight(line, CarriageReturn)) == []
  }

  /** The lines that make a call, in order. */
  function NonBlank(lines: seq<Bytes>): (r: seq<Bytes>)
    ensures forall i :: 0 <= i < |r| ==> !Blank(r[i])
    decreases |lines|
  {
    if lines == [] then []
    else if Blank(lines[0]) then NonBlank(lines[1..])
    else [lines[0]] + NonBlank(lines[1..])
  }

  /** Blank lines contribute nothing. */
  lemma {:induction false} SkipBlank(lines: seq<Bytes>, override: Override)
    ensures CallsOf(lines, override) == CallsOf(NonBlank(lines), override)
    decreases |lines|
  {
    if lines != [] {
      var l0, tail := lines[0], lines[1..];
      assert lines == [l0] + tail;
      CallsOfCons(l0, tail, override);
      SkipBlank(tail, override);
      if !Blank(l0) {
        CallsOfCons(l0, NonBlank(tail), override);
      }
    }
  }

  lemma CallsOfCons(line: Bytes, lines: seq<Bytes>, override: Override)
    ensures CallsOf([line] + lines, override) == LineCall(line, override) + CallsOf(lines, override)
  {
    var f := LineWriter(override);
    MapLinesCons(line, lines, f);
    FlattenCons(f(line), MapLines(lines, f));
  }

  /** One call per non-blank line, in input order: the i-th call is the one
      the i-th non-blank line makes. */
  lemma OneCallPerLine(lines: seq<Bytes>, override: Override)
    ensures |CallsOf(lines, override)| == |NonBlank(lines)|
    ensures forall i :: 0 <= i < |NonBlank(lines)| ==>
      CallsOf(lines, override)[i] == LineCall(NonBlank(lines)[i], override)[0]
  {
    SkipBlank(lines, override);
    FlattenSingles(MapLines(NonBlank(lines), LineWriter(override)));
  }

  /** Every message written to the logger is non-empty. */
  lemma MessagesNonEmpty(lines: seq<Bytes>, override: Override)
    ensures forall i :: 0 <= i < |CallsOf(lines, override)| ==> CallsOf(lines, override)[i].msg != []
  {
    OneCallPerLine(lines, override);
  }

  /** A pinned writer uses its level for every call and keeps the messages
      the unpinned writer would have written. */
  lemma PinnedKeepsMessages(lines: seq<Bytes>, level: Level)
    ensures |CallsOf(lines, Pinned(level))| == |CallsOf(lines, NoOverride)|
    ensures forall i :: 0 <= i < |CallsOf(lines, Pinned(level))| ==>
      CallsOf(lines, Pinned(level))[i] == CallsOf(lines, NoOverride)[i].(level := level)
  {
    OneCallPerLine(lines, Pinned(level));
    OneCallPerLine(lines, NoOverride);
  }

  /** A trailing carriage return never changes what a line logs. */
  lemma LineCallIgnoresCR(line: Bytes, override: Override)
    ensures LineCall(line + "\r", override) == LineCall(line, override)
  {
    TrimRightOfCutSuffix(line, "\r", CarriageReturn);
  }

  /** Two writes that split a buffer at a line boundary log what the whole
      buffer logs. */
  lemma CallsOfAppend(a: seq<Bytes>, b: seq<Bytes>, override: Override)
    ensures CallsOf(a + b, override) == CallsOf(a, override) + CallsOf(b, override)
  {
    var f := LineWriter(override);
    MapLinesAppend(a, b, f);
    FlattenAppend(MapLines(a, f), MapLines(b, f));
  }
}
