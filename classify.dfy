/** The log-line severity classifier of functions.go: it guesses a level and
    a message from one raw text line written by code that knows nothing of
    levels (a stdlib *log.Logger, an http.Server error log, ...). */
module Classify {
  import opened GoBytes
  import opened Levels

  const TlsHandshakePrefix: Bytes := "http: TLS handshake error"
  const ErrorNeedle: Bytes := "error"

  /** The bytes levelFromToken strips from both ends of a token. */
  const Delimiters: set<Byte> := {
    ' ', '\t', '\r', '\n', ':', '|', '-', '[', ']', '(', ')', '{', '}', '<', '>',
    ';', '.', ',', '"', '\''
  }

  predicate IsDelimiter(b: Byte) { b in Delimiters }

  /** The bytes that end the leading token in splitLeadingToken. */
  const TokenEnds: set<Byte> := {' ', '\t', ':', '|', '-'}

  /** s equals t once s's ASCII letters are lower-cased (t is a lower-case
      literal in every use). */
  predicate FoldsTo(s: Bytes, t: Bytes) {
    |s| == |t| && forall k :: 0 <= k < |s| ==> ToLowerASCII(s[k]) == t[k]
  }

  lemma FoldsToIsLower(s: Bytes, t: Bytes)
    ensures FoldsTo(s, t) <==> ToLower(s) == t
  {
    if ToLower(s) == t {
      assert forall k :: 0 <= k < |s| ==> ToLowerASCII(s[k]) == t[k];
    }
  }

  /** asciiEqualFold(s, t). */
  method AsciiEqualFold(s: Bytes, t: Bytes) returns (eq: bool)
    ensures eq <==> |s| == |t| && forall k :: 0 <= k < |s| ==> ToLowerASCII(s[k]) == t[k]
  {
    if |s| != |t| {
      return false;
    }
    var i := 0;
    while i < |s|
      invariant 0 <= i <= |s|
      invariant forall k :: 0 <= k < i ==> ToLowerASCII(s[k]) == t[k]
    {
      if ToLowerASCII(s[i]) != t[i] {
        return false;
      }
      i := i + 1;
    }
    return true;
  }

  /** The split splitLeadingToken makes: at the first byte of TokenEnds, or
      nowhere. */
  function LeadingToken(s: Bytes): (r: (Bytes, Bytes))
    ensures r.0 + r.1 == s
    ensures forall k :: 0 <= k < |r.0| ==> r.0[k] !in TokenEnds
    ensures r.1 == [] || r.1[0] in TokenEnds
  {
    var i := IndexAny(s, TokenEnds);
    if i < 0 then (s, []) else
      assert s[..i] + s[i..] == s;
      (s[..i], s[i..])
  }

  /** splitLeadingToken. */
  method SplitLeadingToken(s: Bytes) returns (token: Bytes, rest: Bytes)
    ensures (token, rest) == LeadingToken(s)
  {
    var i := 0;
    while i < |s|
      invariant 0 <= i <= |s|
      invariant forall k :: 0 <= k < i ==> s[k] !in TokenEnds
    {
      if s[i] in TokenEnds {
        return s[..i], s[i..];
      }
      i := i + 1;
    }
    return s, [];
  }

  /** The token with its delimiter bytes stripped from both ends, as
      levelFromToken's two loops leave token[start:end]. */
  function StripDelimiters(token: Bytes): (r: Bytes)
    ensures r == [] || (!IsDelimiter(r[0]) && !IsDelimiter(r[|r| - 1]))
  {
    TrimRight(TrimLeft(token, Delimiters), Delimiters)
  }

  /** One `case` of levelFromToken's switch: its spellings and its level. */
  datatype SynonymRow = SynonymRow(spellings: seq<Bytes>, level: Level)

  /** levelFromToken's switch, case by case in source order. */
  const SynonymTable: seq<SynonymRow> := [
    SynonymRow(["trace", "trc"], TraceLevel),
    SynonymRow(["debug", "dbg"], DebugLevel),
    SynonymRow(["info", "inf", "information"], InfoLevel),
    SynonymRow(["warn", "warning", "wrn"], WarnLevel),
    SynonymRow(["error", "err"], ErrorLevel),
    SynonymRow(["fatal", "crit", "critical"], FatalLevel),
    SynonymRow(["panic", "alert"], PanicLevel)
  ]

  predicate RowMatches(n: Bytes, row: SynonymRow) {
    exists k :: 0 <= k < |row.spellings| && FoldsTo(n, row.spellings[k])
  }

  /** The first row at or after i that n matches, as the switch picks it. */
  function LookupFrom(n: Bytes, i: nat): (r: (Level, bool))
    requires i <= |SynonymTable|
    ensures r.1 ==> exists j :: i <= j < |SynonymTable| && RowMatches(n, SynonymTable[j]) && r.0 == SynonymTable[j].level
    ensures !r.1 <==> forall j :: i <= j < |SynonymTable| ==> !RowMatches(n, SynonymTable[j])
    ensures !r.1 ==> r.0 == NoLevel
    decreases |SynonymTable| - i
  {
    if i == |SynonymTable| then (NoLevel, false)
    else if RowMatches(n, SynonymTable[i]) then (SynonymTable[i].level, true)
    else LookupFrom(n, i + 1)
  }

  /** The level levelFromToken recognises. */
  function TokenLevel(token: Bytes): (r: (Level, bool))
    ensures !r.1 ==> r.0 == NoLevel
  {
    var n := StripDelimiters(token);
    if n == [] then (NoLevel, false) else LookupFrom(n, 0)
  }

  /** A recognised token is never NoLevel or Disabled. */
  lemma TokenLevelRange(token: Bytes)
    ensures TokenLevel(token).1 ==> TraceLevel <= TokenLevel(token).0 <= PanicLevel
  {
    var n := StripDelimiters(token);
    if n != [] && TokenLevel(token).1 {
      var j :| 0 <= j < |SynonymTable| && RowMatches(n, SynonymTable[j]) && TokenLevel(token).0 == SynonymTable[j].level;
      TableLevelInRange(j);
    }
  }

  lemma TableLevelInRange(j: nat)
    requires j < |SynonymTable|
    ensures TraceLevel <= SynonymTable[j].level <= PanicLevel
  {
    if j == 0 {} else if j == 1 {} else if j == 2 {} else if j == 3 {} else if j == 4 {} else if j == 5 {} else {}
  }

  lemma FoldsToUnique(n: Bytes, v: Bytes, w: Bytes)
    requires FoldsTo(n, v) && FoldsTo(n, w)
    ensures v == w
  {
    FoldsToIsLower(n, v);
    FoldsToIsLower(n, w);
  }

  /** No spelling is listed in two cases of the switch. */
  lemma SpellingsDisjoint(j: nat, j': nat, k: nat)
    requires j' < j < |SynonymTable| && k < |SynonymTable[j].spellings|
    ensures SynonymTable[j].spellings[k] !in SynonymTable[j'].spellings
  {
  }

  /** The order of the switch does not matter: a token that strips to any
      listed spelling, in any letter case, gets that spelling's level. */
  lemma TokenLevelOfSpelling(token: Bytes, j: nat, k: nat)
    requires j < |SynonymTable| && k < |SynonymTable[j].spellings|
    requires FoldsTo(StripDelimiters(token), SynonymTable[j].spellings[k])
    ensures TokenLevel(token) == (SynonymTable[j].level, true)
  {
    var n := StripDelimiters(token);
    var w := SynonymTable[j].spellings[k];
    assert n != [];
    forall j' | 0 <= j' < j ensures !RowMatches(n, SynonymTable[j']) {
      SpellingsDisjoint(j, j', k);
      forall k' | 0 <= k' < |SynonymTable[j'].spellings| && FoldsTo(n, SynonymTable[j'].spellings[k'])
        ensures false
      {
        FoldsToUnique(n, w, SynonymTable[j'].spellings[k']);
      }
    }
    LookupSkips(n, 0, j);
  }

  lemma {:induction false} LookupSkips(n: Bytes, i: nat, j: nat)
    requires i <= j < |SynonymTable| && RowMatches(n, SynonymTable[j])
    requires forall j' :: i <= j' < j ==> !RowMatches(n, SynonymTable[j'])
    ensures LookupFrom(n, i) == (SynonymTable[j].level, true)
    decreases j - i
  {
    if i < j {
      assert !RowMatches(n, SynonymTable[i]);
      LookupSkips(n, i + 1, j);
    } else {
      assert RowMatches(n, SynonymTable[i]);
    }
  }

  /** One `case` of levelFromToken's switch: asciiEqualFold against each
      listed spelling, left to right. */
  method MatchesAny(n: Bytes, spellings: seq<Bytes>) returns (m: bool)
    ensures m <==> exists k :: 0 <= k < |spellings| && FoldsTo(n, spellings[k])
  {
    var i := 0;
    while i < |spellings|
      invariant 0 <= i <= |spellings|
      invariant forall k :: 0 <= k < i ==> !FoldsTo(n, spellings[k])
    {
      m := AsciiEqualFold(n, spellings[i]);
      if m {
        return;
      }
      i := i + 1;
    }
    return false;
  }

  /** levelFromToken: narrows [start, end) past delimiters, then compares
      the rest against every spelling in switch order. */
  method LevelFromToken(token: Bytes) returns (level: Level, ok: bool)
    ensures (level, ok) == TokenLevel(token)
  {
    var start, end := NarrowPast(token, Delimiters);
    if start == end {
      return NoLevel, false;
    }
    var n := token[start..end];
    var i := 0;
    while i < |SynonymTable|
      invariant 0 <= i <= |SynonymTable|
      invariant LookupFrom(n, i) == LookupFrom(n, 0)
    {
      var m := MatchesAny(n, SynonymTable[i].spellings);
      if m {
        return SynonymTable[i].level, true;
      }
      i := i + 1;
    }
    return NoLevel, false;
  }

  /** s holds "error", in any letter case, at index i. */
  predicate ErrorAt(s: Bytes, i: int) {
    0 <= i && i + |ErrorNeedle| <= |s| && FoldsTo(s[i..i + |ErrorNeedle|], ErrorNeedle)
  }

  /** The least i >= from with ErrorAt(s, i), or -1. */
  function ErrorIndexFrom(s: Bytes, from: nat): (r: int)
    ensures r == -1 || (from <= r && ErrorAt(s, r))
    ensures forall j :: from <= j && (r < 0 || j < r) ==> !ErrorAt(s, j)
    decreases |s| - from
  {
    if from + |ErrorNeedle| > |s| then -1
    else if ErrorAt(s, from) then from
    else ErrorIndexFrom(s, from + 1)
  }

  /** The position indexErrorSubstring reports. */
  function ErrorIndex(s: Bytes): (r: int)
    ensures r == -1 || ErrorAt(s, r)
    ensures forall j :: 0 <= j && (r < 0 || j < r) ==> !ErrorAt(s, j)
  {
    ErrorIndexFrom(s, 0)
  }

  /** indexErrorSubstring: nested scans, the inner one cut short by a
      mismatch. */
  method IndexErrorSubstring(s: Bytes) returns (idx: int)
    ensures idx == ErrorIndex(s)
  {
    var n := |ErrorNeedle|;
    var limit := |s| - n;
    var i := 0;
    while i <= limit
      invariant 0 <= i
      invariant limit >= 0 ==> i <= limit + 1
      invariant forall j :: 0 <= j < i ==> !ErrorAt(s, j)
    {
      if ToLowerASCII(s[i]) != 'e' {
        i := i + 1;
        continue;
      }
      var matched := true;
      var j := 1;
      while j < n
        invariant 1 <= j <= n
        invariant matched ==> forall k :: 0 <= k < j ==> ToLowerASCII(s[i + k]) == ErrorNeedle[k]
        invariant !matched ==> !ErrorAt(s, i)
      {
        if ToLowerASCII(s[i + j]) != ErrorNeedle[j] {
          matched := false;
          break;
        }
        j := j + 1;
      }
      if matched {
        assert ErrorAt(s, i);
        return i;
      }
      i := i + 1;
    }
    return -1;
  }

  /** TrimSpace of a suffix of an already trimmed line is again a suffix. */
  lemma TrimSpaceOfSuffix(x: Bytes, t: Bytes)
    requires IsSuffix(x, t)
    requires t == [] || t[|t| - 1] !in Whitespace
    ensures IsSuffix(TrimSpace(x), t)
  {
    var l := TrimLeft(x, Whitespace);
    assert IsSuffix(l, t);
    if l != [] {
      assert l[|l| - 1] == t[|t| - 1];
      assert TrimRight(l, Whitespace) == l;
    }
  }

  lemma SuffixTransitive(a: Bytes, b: Bytes, c: Bytes)
    requires IsSuffix(a, b) && IsSuffix(b, c)
    ensures IsSuffix(a, c)
  {
    assert c[|c| - |a|..] == c[|c| - |b|..][|b| - |a|..];
  }

  lemma SliceIsSuffix(t: Bytes, i: nat)
    requires i <= |t|
    ensures IsSuffix(t[i..], t)
  {
  }

  const CloseBracket: set<Byte> := {']'}
  const ColonSpace: set<Byte> := {':', ' '}
  const SpaceTab: set<Byte> := {' ', '\t'}
  const TokenTrail: set<Byte> := {' ', '\t', '-', '|', ':'}
  const Separators: set<Byte> := {':', '|', '-'}

  /** What one rule of classifyLogLine decides: it settles the line's level
      and message, or passes the line on to the next rule. */
  datatype Verdict = Pass | Settle(level: Level, msg: Bytes)

  /** The line has no trailing whitespace, as TrimSpace leaves it. */
  predicate Trimmed(t: Bytes) { t == [] || t[|t| - 1] !in Whitespace }

  /** A verdict classifyLogLine can return for the trimmed line t. */
  predicate Sound(v: Verdict, t: Bytes) {
    v.Settle? ==> v.level != Disabled && v.level != NoLevel && IsSuffix(v.msg, t)
  }

  /** Rule 1: the net/http TLS handshake error prefix. */
  function TlsRule(t: Bytes): (v: Verdict)
    requires Trimmed(t)
    ensures Sound(v, t)
    ensures v.Settle? <==> IsPrefix(TlsHandshakePrefix, t)
  {
    if IsPrefix(TlsHandshakePrefix, t) then
      var tail := t[|TlsHandshakePrefix|..];
      SliceIsSuffix(t, |TlsHandshakePrefix|);
      TrimSpaceOfSuffix(tail, t);
      SuffixTransitive(TrimLeft(TrimSpace(tail), ColonSpace), TrimSpace(tail), t);
      Settle(ErrorLevel, TrimLeft(TrimSpace(tail), ColonSpace))
    else Pass
  }

  /** Rule 2: "[TOKEN] message" with a recognised TOKEN of at least one byte. */
  function BracketRule(t: Bytes): (v: Verdict)
    requires Trimmed(t)
    ensures Sound(v, t)
  {
    var close := IndexAny(t, CloseBracket);
    if t != [] && t[0] == '[' && close > 1 && TokenLevel(t[1..close]).1 then
      TokenLevelRange(t[1..close]);
      SliceIsSuffix(t, close + 1);
      TrimSpaceOfSuffix(t[close + 1..], t);
      Settle(TokenLevel(t[1..close]).0, TrimSpace(t[close + 1..]))
    else Pass
  }

  /** Rule 3: a recognised leading token; the separator run after it
      (blanks, one optional ':', then blanks, '-', '|' and ':') is dropped. */
  function LeadingTokenRule(t: Bytes): (v: Verdict)
    requires Trimmed(t)
    ensures Sound(v, t)
  {
    var split := LeadingToken(t);
    if TokenLevel(split.0).1 then
      TokenLevelRange(split.0);
      var m1 := TrimLeft(split.1, SpaceTab);
      var m2 := TrimPrefix(m1, ":");
      var m3 := TrimLeft(m2, TokenTrail);
      assert IsSuffix(split.1, t);
      SuffixTransitive(m1, split.1, t);
      SuffixTransitive(m2, m1, t);
      SuffixTransitive(m3, m2, t);
      TrimSpaceOfSuffix(m3, t);
      Settle(TokenLevel(split.0).0, TrimSpace(m3))
    else Pass
  }

  /** Rule 4: a recognised token before the first ':', '|' or '-'. */
  function SeparatorRule(t: Bytes): (v: Verdict)
    requires Trimmed(t)
    ensures Sound(v, t)
  {
    var sep := IndexAny(t, Separators);
    if sep > 0 && TokenLevel(t[..sep]).1 then
      TokenLevelRange(t[..sep]);
      SliceIsSuffix(t, sep + 1);
      TrimSpaceOfSuffix(t[sep + 1..], t);
      Settle(TokenLevel(t[..sep]).0, TrimSpace(t[sep + 1..]))
    else Pass
  }

  /** Rule 5: "error" anywhere, in any case; the message is what follows it
      (leading ':' and ' ' dropped), or the whole line when nothing does. */
  function ErrorSubstringRule(t: Bytes): (v: Verdict)
    requires Trimmed(t)
    ensures Sound(v, t)
    ensures v.Settle? <==> exists i :: ErrorAt(t, i)
    ensures v.Settle? ==> v.level == ErrorLevel && (t != [] ==> v.msg != [])
  {
    var e := ErrorIndex(t);
    if e >= 0 then
      var m :=
        if e + |ErrorNeedle| < |t| then
          var tail := t[e + |ErrorNeedle|..];
          SliceIsSuffix(t, e + |ErrorNeedle|);
          TrimSpaceOfSuffix(tail, t);
          SuffixTransitive(TrimLeft(TrimSpace(tail), ColonSpace), TrimSpace(tail), t);
          TrimLeft(TrimSpace(tail), ColonSpace)
        else [];
      assert IsSuffix(t, t);
      Settle(ErrorLevel, if m == [] then t else m)
    else Pass
  }

  /** The first rule that settles wins. */
  function OrElse(first: Verdict, next: Verdict): Verdict {
    if first.Settle? then first else next
  }

  /** None of the five rules settles on the trimmed line t. */
  predicate NoRuleSettles(t: Bytes)
    requires Trimmed(t)
  {
    TlsRule(t) == Pass && BracketRule(t) == Pass && LeadingTokenRule(t) == Pass
    && SeparatorRule(t) == Pass && ErrorSubstringRule(t) == Pass
  }

  /** classifyLogLine: the first of the five rules that settles decides
      level and message; a line no rule settles has no level and keeps its
      trimmed text. */
  function ClassifyLogLine(raw: Bytes): (r: (Level, Bytes))
    ensures r.0 != Disabled
    ensures IsSuffix(r.1, TrimSpace(raw))
    ensures TrimSpace(raw) == [] ==> r == (NoLevel, [])
    ensures r.0 == NoLevel ==> r.1 == TrimSpace(raw)
  {
    var t := TrimSpace(raw);
    if t == [] then (NoLevel, [])
    else
      var v := OrElse(TlsRule(t), OrElse(BracketRule(t), OrElse(LeadingTokenRule(t),
        OrElse(SeparatorRule(t), ErrorSubstringRule(t)))));
      assert IsSuffix(t, t);
      if v.Settle? then (v.level, v.msg) else (NoLevel, t)
  }

  /** A line with no whitespace at either end is its own TrimSpace. */
  lemma TrimmedLine(t: Bytes)
    requires t != [] && t[0] !in Whitespace && t[|t| - 1] !in Whitespace
    ensures TrimSpace(t) == t
  {
    TrimLeftAt(t, Whitespace, 0);
    TrimRightAt(t, Whitespace, |t|);
  }

  /** Rule 1 wins: a line starting with the TLS handshake prefix is an
      error whose message is the rest, trimmed of spaces and colons. */
  lemma ClassifyTls(rest: Bytes)
    requires Trimmed(rest)
    ensures ClassifyLogLine(TlsHandshakePrefix + rest) ==
      (ErrorLevel, TrimLeft(TrimSpace(rest), ColonSpace))
  {
    var t := TlsHandshakePrefix + rest;
    assert t[|t| - 1] == if rest == [] then 'r' else rest[|rest| - 1];
    TrimmedLine(t);
    assert t[..|TlsHandshakePrefix|] == TlsHandshakePrefix;
    assert t[|TlsHandshakePrefix|..] == rest;
  }

  /** The second rule decides when the first passes. */
  lemma ClassifySecond(t: Bytes, l: Level, m: Bytes)
    requires t != [] && TrimSpace(t) == t
    requires TlsRule(t) == Pass && BracketRule(t) == Settle(l, m)
    ensures ClassifyLogLine(t) == (l, m)
  {
  }

  /** Rule 2 settles on "[TOKEN]rest", whose first ']' is at index close,
      when TOKEN is recognised as level l: the message is rest, trimmed. */
  lemma BracketRuleAt(t: Bytes, close: nat, l: Level)
    requires 1 < close < |t| && t[0] == '[' && t[close] == ']'
    requires forall k :: 0 < k < close ==> t[k] != ']'
    requires TokenLevel(t[1..close]) == (l, true)
    requires Trimmed(t)
    ensures BracketRule(t) == Settle(l, TrimSpace(t[close + 1..]))
  {
    forall k | 0 <= k < close
      ensures t[k] !in CloseBracket
    {
      assert k == 0 ==> t[k] == '[';
    }
    IndexAnyAt(t, CloseBracket, close);
    BracketRuleIs(t, close, l);
  }

  /** Rule 2 once the first ']' is known to be at index close. */
  lemma BracketRuleIs(t: Bytes, close: nat, l: Level)
    requires Trimmed(t) && 1 < close < |t| && t[0] == '['
    requires IndexAny(t, CloseBracket) == close && TokenLevel(t[1..close]) == (l, true)
    ensures BracketRule(t) == Settle(l, TrimSpace(t[close + 1..]))
  {
  }

  // ---- Examples ----
  lemma ExStepA(t: Bytes)
    requires t == "[INFO] service ready"
    ensures TrimSpace(t) == t
  { TrimmedLine(t); }
  lemma ExStepB(t: Bytes)
    requires t == "[INFO] service ready"
    ensures TokenLevel(t[1..5]) == (InfoLevel, true)
  {
    var token := t[1..5];
    assert token == "INFO";
    TrimLeftAt(token, Delimiters, 0);
    TrimRightAt(token, Delimiters, 4);
    assert FoldsTo(StripDelimiters(token), SynonymTable[2].spellings[0]);
    TokenLevelOfSpelling(token, 2, 0);
  }
  lemma ExStepC(t: Bytes)
    requires t == "[INFO] service ready"
    ensures 5 < |t| && t[0] == '[' && t[5] == ']' && Trimmed(t)
    ensures forall k :: 0 < k < 5 ==> t[k] != ']'
  {
  }
  lemma ExStepD(t: Bytes)
    requires t == "[INFO] service ready"
    ensures TrimSpace(t[6..]) == "service ready"
  {
    var rest := t[6..];
    assert rest[1..] == "service ready";
    TrimLeftAt(rest, Whitespace, 1);
    TrimRightAt(rest[1..], Whitespace, |rest| - 1);
  }
  lemma ExStepE(t: Bytes)
    requires t == "[INFO] service ready"
    ensures TlsRule(t) == Pass
  { }

  /** "[INFO] service ready" is an Info line whose message is "service ready". */
  lemma ClassifyBracketExample()
    ensures ClassifyLogLine("[INFO] service ready") == (InfoLevel, "service ready")
  {
    var t: Bytes := "[INFO] service ready";
    ExStepA(t);
    ExStepB(t);
    ExStepC(t);
    BracketRuleAt(t, 5, InfoLevel);
    ExStepD(t);
    ExStepE(t);
    ClassifySecond(t, InfoLevel, "service ready");
  }

  /** The third rule decides when the first two pass. */
  lemma ClassifyThird(t: Bytes, l: Level, m: Bytes)
    requires t != [] && TrimSpace(t) == t
    requires TlsRule(t) == Pass && BracketRule(t) == Pass && LeadingTokenRule(t) == Settle(l, m)
    ensures ClassifyLogLine(t) == (l, m)
  {
  }

  /** A message that none of the trimming steps touches. */
  predicate CleanMessage(msg: Bytes) {
    msg != [] && msg[0] !in TokenTrail && msg[0] !in Whitespace && msg[|msg| - 1] !in Whitespace
  }

  /** The leading token of tok + rest, when rest starts with a token end
      and tok holds none, is tok. */
  lemma LeadingTokenOf(t: Bytes, tok: Bytes, rest: Bytes)
    requires t == tok + rest && rest != [] && rest[0] in TokenEnds
    requires forall k :: 0 <= k < |tok| ==> tok[k] !in TokenEnds
    ensures LeadingToken(t) == (tok, rest)
  {
    assert forall k :: 0 <= k < |tok| ==> t[k] == tok[k];
    IndexAnyAt(t, TokenEnds, |tok|);
    assert t[..|tok|] == tok && t[|tok|..] == rest;
  }

  lemma SplitAfterToken(tok: Bytes, sep: Bytes, msg: Bytes)
    requires msg != []
    ensures tok + sep + msg == tok + (sep + msg)
    ensures (tok + sep + msg)[|tok + sep + msg| - 1] == msg[|msg| - 1]
  {
  }

  /** After the token, ": msg" is trimmed down to msg. */
  lemma TokenMessage(rest: Bytes, msg: Bytes)
    requires rest == ": " + msg && CleanMessage(msg)
    ensures TrimSpace(TrimLeft(TrimPrefix(TrimLeft(rest, SpaceTab), ":"), TokenTrail)) == msg
  {
    TrimLeftAt(rest, SpaceTab, 0);
    assert IsPrefix(":", rest) && rest[1..] == " " + msg;
    TrimLeftAt(" " + msg, TokenTrail, 1);
    assert (" " + msg)[1..] == msg;
    TrimmedLine(msg);
  }

  /** Rule 3 settles with the token's level and the rest, trimmed. */
  lemma LeadingTokenRuleIs(t: Bytes, tok: Bytes, rest: Bytes, l: Level, msg: Bytes)
    requires Trimmed(t) && LeadingToken(t) == (tok, rest) && TokenLevel(tok) == (l, true)
    requires TrimSpace(TrimLeft(TrimPrefix(TrimLeft(rest, SpaceTab), ":"), TokenTrail)) == msg
    ensures LeadingTokenRule(t) == Settle(l, msg)
  {
  }

  /** Rule 3 on "TOKEN: msg": the token's level, and msg untouched. */
  lemma LeadingTokenRuleAt(t: Bytes, tok: Bytes, msg: Bytes, l: Level)
    requires t == tok + ": " + msg
    requires tok != [] && forall k :: 0 <= k < |tok| ==> tok[k] !in TokenEnds
    requires TokenLevel(tok) == (l, true)
    requires CleanMessage(msg)
    ensures Trimmed(t)
    ensures LeadingTokenRule(t) == Settle(l, msg)
  {
    var rest := ": " + msg;
    SplitAfterToken(tok, ": ", msg);
    LeadingTokenOf(t, tok, rest);
    TokenMessage(rest, msg);
    LeadingTokenRuleIs(t, tok, rest, l, msg);
  }

  /** "TOKEN: msg", for a recognised leading token, gets the token's level
      and keeps msg as it is: "ERROR: database unavailable" is an Error
      line whose message is "database unavailable". */
  lemma ClassifyLeadingToken(t: Bytes, tok: Bytes, msg: Bytes, l: Level)
    requires t == tok + ": " + msg
    requires tok != [] && tok[0] != '[' && tok[0] !in Whitespace
    requires forall k :: 0 <= k < |tok| ==> tok[k] !in TokenEnds
    requires TokenLevel(tok) == (l, true)
    requires CleanMessage(msg)
    requires !IsPrefix(TlsHandshakePrefix, t)
    ensures ClassifyLogLine(t) == (l, msg)
  {
    LeadingTokenRuleAt(t, tok, msg, l);
    assert t[0] == tok[0] && Trimmed(t);
    TrimmedLine(t);
    TlsPasses(t);
    BracketPasses(t);
    ClassifyThird(t, l, msg);
  }

  lemma TlsPasses(t: Bytes)
    requires Trimmed(t) && !IsPrefix(TlsHandshakePrefix, t)
    ensures TlsRule(t) == Pass
  {
  }

  lemma BracketPasses(t: Bytes)
    requires Trimmed(t) && t != [] && t[0] != '['
    ensures BracketRule(t) == Pass
  {
  }
  /** A line without ':', '|' or '-' passes rule 4. */
  lemma SeparatorRulePasses(t: Bytes)
    requires Trimmed(t) && forall k :: 0 <= k < |t| ==> t[k] !in Separators
    ensures SeparatorRule(t) == Pass
  {
  }

  /** Rule 4 settles on TOKEN + c + rest, c the first of ':', '|' and '-',
      when TOKEN is recognised as level l: the message is rest, trimmed. */
  lemma SeparatorRuleAt(t: Bytes, tok: Bytes, rest: Bytes, l: Level)
    requires t == tok + rest && tok != [] && rest != [] && rest[0] in Separators
    requires forall k :: 0 <= k < |tok| ==> tok[k] !in Separators
    requires TokenLevel(tok) == (l, true)
    requires Trimmed(t)
    ensures SeparatorRule(t) == Settle(l, TrimSpace(rest[1..]))
  {
    assert forall k :: 0 <= k < |tok| ==> t[k] == tok[k];
    IndexAnyAt(t, Separators, |tok|);
    assert t[..|tok|] == tok && t[|tok| + 1..] == rest[1..];
    SeparatorRuleIs(t, |tok|, l);
  }

  /** Rule 4 once the first separator is known to be at index sep. */
  lemma SeparatorRuleIs(t: Bytes, sep: nat, l: Level)
    requires Trimmed(t) && 0 < sep < |t|
    requires IndexAny(t, Separators) == sep && TokenLevel(t[..sep]) == (l, true)
    ensures SeparatorRule(t) == Settle(l, TrimSpace(t[sep + 1..]))
  {
  }

  /** The fourth rule decides when the first three pass. */
  lemma ClassifyFourth(t: Bytes, l: Level, m: Bytes)
    requires t != [] && TrimSpace(t) == t
    requires TlsRule(t) == Pass && BracketRule(t) == Pass && LeadingTokenRule(t) == Pass
    requires SeparatorRule(t) == Settle(l, m)
    ensures ClassifyLogLine(t) == (l, m)
  {
  }

  /** The message rule 5 derives from what follows the "error" it found:
      rest, trimmed and stripped of leading ':' and ' ', or the whole line
      when that leaves nothing. */
  function ErrorMessage(t: Bytes, rest: Bytes): Bytes {
    var m := TrimLeft(TrimSpace(rest), ColonSpace);
    if m == [] then t else m
  }

  /** Rule 5 settles on pre + word + rest, word the first "error" in any
      letter case: an Error with ErrorMessage(t, rest). */
  lemma ErrorSubstringRuleAt(t: Bytes, pre: Bytes, word: Bytes, rest: Bytes)
    requires t == pre + word + rest && FoldsTo(word, ErrorNeedle)
    requires forall j :: 0 <= j < |pre| ==> !ErrorAt(t, j)
    requires Trimmed(t)
    ensures ErrorSubstringRule(t) == Settle(ErrorLevel, ErrorMessage(t, rest))
  {
    var e := |pre|;
    assert t[e..e + |ErrorNeedle|] == word;
    assert ErrorAt(t, e);
    assert t[e + |ErrorNeedle|..] == rest;
    ErrorSubstringRuleIs(t, e, rest);
  }

  /** Rule 5 once the first "error" is known to start at index e. */
  lemma ErrorSubstringRuleIs(t: Bytes, e: nat, rest: Bytes)
    requires Trimmed(t) && e + |ErrorNeedle| <= |t| && ErrorIndex(t) == e
    requires t[e + |ErrorNeedle|..] == rest
    ensures ErrorSubstringRule(t) == Settle(ErrorLevel, ErrorMessage(t, rest))
  {
  }

  /** A line with no "error" in any letter case passes rule 5. */
  lemma ErrorSubstringRulePasses(t: Bytes)
    requires Trimmed(t) && forall j :: 0 <= j < |t| ==> !ErrorAt(t, j)
    ensures ErrorSubstringRule(t) == Pass
  {
  }

  /** The fifth rule decides when the first four pass. */
  lemma ClassifyFifth(t: Bytes, m: Bytes)
    requires t != [] && TrimSpace(t) == t
    requires TlsRule(t) == Pass && BracketRule(t) == Pass && LeadingTokenRule(t) == Pass
    requires SeparatorRule(t) == Pass && ErrorSubstringRule(t) == Settle(ErrorLevel, m)
    ensures ClassifyLogLine(t) == (ErrorLevel, m)
  {
  }

  /** The error-substring fallback: a line the first four rules pass on,
      whose first "error" (in any letter case) is word, is an Error whose
      message is what follows word, trimmed of spaces and leading ':', or
      the whole line when nothing is left. */
  lemma ClassifyErrorSubstring(t: Bytes, pre: Bytes, word: Bytes, rest: Bytes)
    requires t == pre + word + rest && FoldsTo(word, ErrorNeedle)
    requires forall j :: 0 <= j < |pre| ==> !ErrorAt(t, j)
    requires TrimSpace(t) == t
    requires TlsRule(t) == Pass && BracketRule(t) == Pass && LeadingTokenRule(t) == Pass
    requires SeparatorRule(t) == Pass
    ensures ClassifyLogLine(t) == (ErrorLevel, ErrorMessage(t, rest))
  {
    assert |t| >= |word| > 0;
    ErrorSubstringRuleAt(t, pre, word, rest);
    ClassifyFifth(t, ErrorMessage(t, rest));
  }

  /** A line gets no level exactly when it is blank or no rule settles on
      it; it then keeps its trimmed text. */
  lemma ClassifyNoLevelIff(raw: Bytes)
    ensures ClassifyLogLine(raw).0 == NoLevel <==> TrimSpace(raw) == [] || NoRuleSettles(TrimSpace(raw))
  {
    var t := TrimSpace(raw);
    if t != [] {
      var a, b, c, d, e := TlsRule(t), BracketRule(t), LeadingTokenRule(t), SeparatorRule(t), ErrorSubstringRule(t);
      var v := OrElse(a, OrElse(b, OrElse(c, OrElse(d, e))));
      assert ClassifyLogLine(raw) == if v.Settle? then (v.level, v.msg) else (NoLevel, t);
      FirstOfFive(a, b, c, d, e, t);
    }
  }

  /** The first of five sound verdicts is sound, and passes only when all
      five do. */
  lemma FirstOfFive(a: Verdict, b: Verdict, c: Verdict, d: Verdict, e: Verdict, t: Bytes)
    requires Sound(a, t) && Sound(b, t) && Sound(c, t) && Sound(d, t) && Sound(e, t)
    ensures var v := OrElse(a, OrElse(b, OrElse(c, OrElse(d, e))));
      Sound(v, t) && (v.Pass? <==> a.Pass? && b.Pass? && c.Pass? && d.Pass? && e.Pass?)
  {
  }

  /** A line no rule settles has no level and keeps its trimmed text. */
  lemma ClassifyNoMatch(t: Bytes)
    requires t != [] && TrimSpace(t) == t && NoRuleSettles(t)
    ensures ClassifyLogLine(t) == (NoLevel, t)
  {
  }

  // ---- Quantifier-free checks, for literal lines ----

  /** ErrorAt spelled out byte by byte. */
  predicate ErrorAtBytes(s: Bytes, i: nat) {
    i + 5 <= |s| && ToLowerASCII(s[i]) == 'e' && ToLowerASCII(s[i + 1]) == 'r'
    && ToLowerASCII(s[i + 2]) == 'r' && ToLowerASCII(s[i + 3]) == 'o' && ToLowerASCII(s[i + 4]) == 'r'
  }

  lemma ErrorAtBytesIs(s: Bytes, i: nat)
    ensures ErrorAt(s, i) ==> ErrorAtBytes(s, i)
  {
    if ErrorAt(s, i) {
      var w := s[i..i + |ErrorNeedle|];
      assert w[0] == s[i] && w[1] == s[i + 1] && w[2] == s[i + 2] && w[3] == s[i + 3] && w[4] == s[i + 4];
      assert ToLowerASCII(w[0]) == ErrorNeedle[0] && ToLowerASCII(w[1]) == ErrorNeedle[1];
      assert ToLowerASCII(w[2]) == ErrorNeedle[2] && ToLowerASCII(w[3]) == ErrorNeedle[3];
      assert ToLowerASCII(w[4]) == ErrorNeedle[4];
    }
  }

  /** No "error" starts below n. */
  predicate NoErrorBelow(s: Bytes, n: nat)
    decreases n
  {
    n == 0 || (!ErrorAtBytes(s, n - 1) && NoErrorBelow(s, n - 1))
  }

  lemma {:induction false} NoErrorBelowIs(s: Bytes, n: nat)
    requires NoErrorBelow(s, n)
    ensures forall j :: 0 <= j < n ==> !ErrorAt(s, j)
    decreases n
  {
    if n > 0 {
      NoErrorBelowIs(s, n - 1);
      ErrorAtBytesIs(s, n - 1);
    }
  }

  /** FoldsTo, one byte at a time. */
  predicate FoldEq(s: Bytes, t: Bytes)
    decreases |s|
  {
    |s| == |t| && (s == [] || (ToLowerASCII(s[0]) == t[0] && FoldEq(s[1..], t[1..])))
  }

  lemma {:induction false} FoldEqIs(s: Bytes, t: Bytes)
    ensures FoldsTo(s, t) ==> FoldEq(s, t)
    decreases |s|
  {
    if FoldsTo(s, t) && s != [] {
      assert forall k :: 0 <= k < |s| - 1 ==> s[1..][k] == s[k + 1] && t[1..][k] == t[k + 1];
      FoldEqIs(s[1..], t[1..]);
    }
  }

  /** n folds to none of the spellings. */
  predicate FoldsToNone(n: Bytes, spellings: seq<Bytes>)
    decreases |spellings|
  {
    spellings == [] || (!FoldEq(n, spellings[0]) && FoldsToNone(n, spellings[1..]))
  }

  lemma {:induction false} FoldsToNoneIs(n: Bytes, spellings: seq<Bytes>)
    requires FoldsToNone(n, spellings)
    ensures forall k :: 0 <= k < |spellings| ==> !FoldsTo(n, spellings[k])
    decreases |spellings|
  {
    if spellings != [] {
      FoldsToNoneIs(n, spellings[1..]);
      forall k | 0 <= k < |spellings| ensures !FoldsTo(n, spellings[k]) {
        FoldEqIs(n, spellings[k]);
        if k > 0 {
          assert spellings[k] == spellings[1..][k - 1];
        }
      }
    }
  }

  /** n matches no row of the switch at or after i. */
  predicate MatchesNoRow(n: Bytes, i: nat)
    decreases |SynonymTable| - i
  {
    i >= |SynonymTable| || (FoldsToNone(n, SynonymTable[i].spellings) && MatchesNoRow(n, i + 1))
  }

  lemma {:induction false} MatchesNoRowIs(n: Bytes, i: nat)
    requires i <= |SynonymTable| && MatchesNoRow(n, i)
    ensures LookupFrom(n, i) == (NoLevel, false)
    decreases |SynonymTable| - i
  {
    if i < |SynonymTable| {
      FoldsToNoneIs(n, SynonymTable[i].spellings);
      MatchesNoRowIs(n, i + 1);
    }
  }

  /** A token with no delimiter at either end is its own stripped form. */
  lemma StripsToItself(tok: Bytes)
    requires tok != [] && !IsDelimiter(tok[0]) && !IsDelimiter(tok[|tok| - 1])
    ensures StripDelimiters(tok) == tok
  {
    TrimLeftAt(tok, Delimiters, 0);
    assert tok[0..] == tok;
    TrimRightAt(tok, Delimiters, |tok|);
    assert tok[..|tok|] == tok;
  }

  /** A token with no delimiter at either end that matches no row is not
      recognised. */
  lemma TokenUnrecognised(tok: Bytes)
    requires tok != [] && !IsDelimiter(tok[0]) && !IsDelimiter(tok[|tok| - 1])
    requires MatchesNoRow(tok, 0)
    ensures TokenLevel(tok) == (NoLevel, false)
  {
    StripsToItself(tok);
    MatchesNoRowIs(tok, 0);
  }

  /** Rule 3 passes when the leading token is not recognised. */
  lemma LeadingTokenRulePasses(t: Bytes, tok: Bytes, rest: Bytes)
    requires Trimmed(t) && LeadingToken(t) == (tok, rest) && !TokenLevel(tok).1
    ensures LeadingTokenRule(t) == Pass
  {
  }

  // ---- The no-match and error-substring examples ----

  /** No byte of cut below n. */
  predicate NoneBelow(s: Bytes, cut: set<Byte>, n: nat)
    decreases n
  {
    n == 0 || (n <= |s| && s[n - 1] !in cut && NoneBelow(s, cut, n - 1))
  }

  lemma {:induction false} NoneBelowIs(s: Bytes, cut: set<Byte>, n: nat)
    requires NoneBelow(s, cut, n)
    ensures n <= |s| && forall k :: 0 <= k < n ==> s[k] !in cut
    decreases n
  {
    if n > 0 {
      NoneBelowIs(s, cut, n - 1);
    }
  }

  lemma ExPlainFacts(t: Bytes)
    requires t == "plain telemetry line"
    ensures t == "plain" + t[5..] && t[5..] != [] && t[5..][0] in TokenEnds
    ensures t[0] !in Whitespace && t[|t| - 1] !in Whitespace && t[0] != '['
    ensures !IsPrefix(TlsHandshakePrefix, t)
  {
  }

  lemma ExPlainRows()
    ensures MatchesNoRow("plain", 0)
  {
  }

  lemma ExPlainEnds(tok: Bytes)
    requires tok == "plain"
    ensures tok != [] && !IsDelimiter(tok[0]) && !IsDelimiter(tok[|tok| - 1])
  {
  }

  lemma ExPlainNoTokenEnd(tok: Bytes)
    requires tok == "plain"
    ensures forall k :: 0 <= k < |tok| ==> tok[k] !in TokenEnds
  {
    assert NoneBelow("plain", TokenEnds, 5);
    NoneBelowIs(tok, TokenEnds, 5);
  }

  lemma ExPlainToken(tok: Bytes)
    requires tok == "plain"
    ensures TokenLevel(tok) == (NoLevel, false)
    ensures forall k :: 0 <= k < |tok| ==> tok[k] !in TokenEnds
  {
    ExPlainRows();
    ExPlainEnds(tok);
    TokenUnrecognised(tok);
    ExPlainNoTokenEnd(tok);
  }

  lemma ExPlainSeparators(t: Bytes)
    requires t == "plain telemetry line"
    ensures forall k :: 0 <= k < |t| ==> t[k] !in Separators
  {
    assert NoneBelow("plain telemetry line", Separators, 5);
    assert NoneBelow("plain telemetry line", Separators, 10);
    assert NoneBelow("plain telemetry line", Separators, 15);
    assert NoneBelow("plain telemetry line", Separators, 20);
    NoneBelowIs(t, Separators, 20);
  }

  lemma ExPlainNoError(t: Bytes)
    requires t == "plain telemetry line"
    ensures forall j :: 0 <= j < |t| ==> !ErrorAt(t, j)
  {
    assert NoErrorBelow("plain telemetry line", 4);
    assert NoErrorBelow("plain telemetry line", 8);
    assert NoErrorBelow("plain telemetry line", 12);
    assert NoErrorBelow("plain telemetry line", 16);
    assert NoErrorBelow("plain telemetry line", 20);
    NoErrorBelowIs(t, 20);
  }

  lemma ExPlainScan(t: Bytes)
    requires t == "plain telemetry line"
    ensures forall k :: 0 <= k < |t| ==> t[k] !in Separators
    ensures forall j :: 0 <= j < |t| ==> !ErrorAt(t, j)
  {
    ExPlainSeparators(t);
    ExPlainNoError(t);
  }

  /** "plain telemetry line" matches no rule: no level, and the line kept. */
  lemma ClassifyNoMatchExample()
    ensures ClassifyLogLine("plain telemetry line") == (NoLevel, "plain telemetry line")
  {
    var t: Bytes := "plain telemetry line";
    ExPlainFacts(t);
    TrimmedLine(t);
    TlsPasses(t);
    BracketPasses(t);
    var tok: Bytes := "plain";
    ExPlainToken(tok);
    LeadingTokenOf(t, tok, t[5..]);
    LeadingTokenRulePasses(t, tok, t[5..]);
    ExPlainScan(t);
    SeparatorRulePasses(t);
    ErrorSubstringRulePasses(t);
    ClassifyNoMatch(t);
  }

  lemma ExOperationFacts(t: Bytes)
    requires t == "operation failed with error code"
    ensures t == "operation" + t[9..] && t[9..] != [] && t[9..][0] in TokenEnds
    ensures t[0] !in Whitespace && t[|t| - 1] !in Whitespace && t[0] != '['
    ensures !IsPrefix(TlsHandshakePrefix, t)
  {
    assert t[..|TlsHandshakePrefix|][0] != TlsHandshakePrefix[0];
  }

  lemma ExOperationSplit(t: Bytes, pre: Bytes, word: Bytes, rest: Bytes)
    requires t == "operation failed with error code"
    requires pre == "operation failed with " && word == "error" && rest == " code"
    ensures t == pre + word + rest && |pre| == 22 && FoldsTo(word, ErrorNeedle)
  {
  }

  lemma ExOperationRows()
    ensures MatchesNoRow("operation", 0)
  {
  }

  lemma ExOperationEnds(tok: Bytes)
    requires tok == "operation"
    ensures tok != [] && !IsDelimiter(tok[0]) && !IsDelimiter(tok[|tok| - 1])
  {
  }

  lemma ExOperationNoTokenEnd(tok: Bytes)
    requires tok == "operation"
    ensures forall k :: 0 <= k < |tok| ==> tok[k] !in TokenEnds
  {
    assert NoneBelow("operation", TokenEnds, 9);
    NoneBelowIs(tok, TokenEnds, 9);
  }

  lemma ExOperationToken(tok: Bytes)
    requires tok == "operation"
    ensures TokenLevel(tok) == (NoLevel, false)
    ensures forall k :: 0 <= k < |tok| ==> tok[k] !in TokenEnds
  {
    ExOperationRows();
    ExOperationEnds(tok);
    TokenUnrecognised(tok);
    ExOperationNoTokenEnd(tok);
  }

  /** A byte missing from two strings is missing from their concatenation. */
  lemma NoneInConcat(a: Bytes, b: Bytes, cut: set<Byte>)
    requires forall k :: 0 <= k < |a| ==> a[k] !in cut
    requires forall k :: 0 <= k < |b| ==> b[k] !in cut
    ensures forall k :: 0 <= k < |a + b| ==> (a + b)[k] !in cut
  {
  }

  lemma ExOperationSeparators(t: Bytes)
    requires t == "operation failed with error code"
    ensures forall k :: 0 <= k < |t| ==> t[k] !in Separators
  {
    var a: Bytes, b: Bytes := "operation failed", " with error code";
    assert NoneBelow("operation failed", Separators, 8);
    assert NoneBelow("operation failed", Separators, 16);
    NoneBelowIs(a, Separators, 16);
    assert NoneBelow(" with error code", Separators, 8);
    assert NoneBelow(" with error code", Separators, 16);
    NoneBelowIs(b, Separators, 16);
    NoneInConcat(a, b, Separators);
    assert t == a + b;
  }

  lemma ExOperationNoError(t: Bytes)
    requires t == "operation failed with error code"
    ensures forall j :: 0 <= j < 22 ==> !ErrorAt(t, j)
  {
    assert NoErrorBelow("operation failed with error code", 4);
    assert NoErrorBelow("operation failed with error code", 8);
    assert NoErrorBelow("operation failed with error code", 12);
    assert NoErrorBelow("operation failed with error code", 16);
    assert NoErrorBelow("operation failed with error code", 20);
    assert NoErrorBelow("operation failed with error code", 22);
    NoErrorBelowIs(t, 22);
  }

  lemma ExOperationScan(t: Bytes)
    requires t == "operation failed with error code"
    ensures forall k :: 0 <= k < |t| ==> t[k] !in Separators
    ensures forall j :: 0 <= j < 22 ==> !ErrorAt(t, j)
  {
    ExOperationSeparators(t);
    ExOperationNoError(t);
  }

  lemma ExOperationMessage(t: Bytes, rest: Bytes)
    requires rest == " code"
    ensures ErrorMessage(t, rest) == "code"
  {
    TrimLeftAt(rest, Whitespace, 1);
    assert rest[1..] == "code";
    TrimRightAt(rest[1..], Whitespace, 4);
    TrimLeftAt("code", ColonSpace, 0);
  }

  /** Rules 1 to 4 pass on "operation failed with error code". */
  lemma ExOperationPasses(t: Bytes)
    requires t == "operation failed with error code"
    ensures TrimSpace(t) == t
    ensures TlsRule(t) == Pass && BracketRule(t) == Pass && LeadingTokenRule(t) == Pass
    ensures SeparatorRule(t) == Pass
  {
    ExOperationFacts(t);
    TrimmedLine(t);
    TlsPasses(t);
    BracketPasses(t);
    var tok: Bytes := "operation";
    ExOperationToken(tok);
    LeadingTokenOf(t, tok, t[9..]);
    LeadingTokenRulePasses(t, tok, t[9..]);
    ExOperationScan(t);
    SeparatorRulePasses(t);
  }

  /** Rule 5 finds "error" at index 22 and keeps "code". */
  lemma ExOperationRule5(t: Bytes)
    requires t == "operation failed with error code"
    ensures ErrorSubstringRule(t) == Settle(ErrorLevel, "code")
  {
    var pre: Bytes, word: Bytes, rest: Bytes := "operation failed with ", "error", " code";
    ExOperationSplit(t, pre, word, rest);
    ExOperationScan(t);
    ExOperationFacts(t);
    ErrorSubstringRuleAt(t, pre, word, rest);
    ExOperationMessage(t, rest);
  }

  /** "operation failed with error code" is an Error whose message is
      "code", the text after "error". */
  lemma ClassifyErrorSubstringExample(t: Bytes)
    requires t == "operation failed with error code"
    ensures ClassifyLogLine(t) == (ErrorLevel, "code")
  {
    ExOperationPasses(t);
    ExOperationRule5(t);
    ClassifyFifth(t, "code");
  }
}
