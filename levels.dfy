/** logport's severity levels (`Level`, an int8) and the pure tables that
    translate them to and from text and slog levels. */
module Levels {
  import opened GoBytes

  type Level = Int8

  const DebugLevel: Level := 0
  const InfoLevel: Level := 1
  const WarnLevel: Level := 2
  const ErrorLevel: Level := 3
  const FatalLevel: Level := 4
  const PanicLevel: Level := 5
  const NoLevel: Level := 6
  const Disabled: Level := 7
  const TraceLevel: Level := -1

  /** The nine named levels; any other int8 is a valid but unnamed Level. */
  predicate IsNamed(l: Level) { TraceLevel <= l <= Disabled }

  /** slog's level constants. */
  const SlogDebug: int := -4
  const SlogInfo: int := 0
  const SlogWarn: int := 4
  const SlogError: int := 8

  lemma LevelsOrdered()
    ensures TraceLevel < DebugLevel < InfoLevel < WarnLevel < ErrorLevel
    ensures ErrorLevel < FatalLevel < PanicLevel < NoLevel < Disabled
  {
  }

  /** LevelString: the canonical lower-case name; unnamed values read "info". */
  function LevelString(level: Level): (r: Bytes)
    ensures !IsNamed(level) ==> r == "info"
    ensures 4 <= |r| <= 8
    ensures forall k :: 0 <= k < |r| ==> 'a' <= r[k] <= 'z'
  {
    match level
    case -1 => "trace"
    case 0 => "debug"
    case 1 => "info"
    case 2 => "warn"
    case 3 => "error"
    case 4 => "fatal"
    case 5 => "panic"
    case 6 => "nolevel"
    case 7 => "disabled"
    case _ => "info"
  }

  /** ParseLevel: matches the lower-cased, space-trimmed text against the
      level names and their synonyms; anything else is (InfoLevel, false). */
  function ParseLevel(value: Bytes): (r: (Level, bool))
    ensures r.1 ==> IsNamed(r.0)
    ensures !r.1 ==> r.0 == InfoLevel
  {
    LevelOfName(ToLower(TrimSpace(value)))
  }

  /** The switch inside ParseLevel, on text already trimmed and lower-cased. */
  function LevelOfName(name: Bytes): (r: (Level, bool))
    ensures r.1 ==> IsNamed(r.0)
    ensures !r.1 ==> r.0 == InfoLevel
    ensures r.1 <==> name in AcceptedNames
  {
    if name == "trace" then (TraceLevel, true)
    else if name == "debug" then (DebugLevel, true)
    else if name == "info" then (InfoLevel, true)
    else if name == "warn" || name == "warning" then (WarnLevel, true)
    else if name == "error" then (ErrorLevel, true)
    else if name == "fatal" then (FatalLevel, true)
    else if name == "panic" then (PanicLevel, true)
    else if name == "no" || name == "nolevel" || name == "none" then (NoLevel, true)
    else if name == "disabled" || name == "disable" || name == "off" then (Disabled, true)
    else (InfoLevel, false)
  }

  /** The spellings ParseLevel accepts, once lower-cased and trimmed. */
  const AcceptedNames: set<Bytes> := {
    "trace", "debug", "info", "warn", "warning", "error", "fatal", "panic",
    "no", "nolevel", "none", "disabled", "disable", "off"
  }

  /** Every named level survives a trip through its canonical name. */
  lemma ParseLevelString(l: Level)
    requires IsNamed(l)
    ensures ParseLevel(LevelString(l)) == (l, true)
  {
    var s := LevelString(l);
    TrimSpaceKeepsWord(s);
    LowerKeepsLowercase(s);
  }

  lemma TrimSpaceKeepsWord(s: Bytes)
    requires s != [] && s[0] !in Whitespace && s[|s| - 1] !in Whitespace
    ensures TrimSpace(s) == s
  {
  }

  lemma LowerKeepsLowercase(s: Bytes)
    requires forall k :: 0 <= k < |s| ==> !('A' <= s[k] <= 'Z')
    ensures ToLower(s) == s
  {
  }

  lemma {:induction false} TrimLeftOfCutPrefix(pre: Bytes, x: Bytes, cut: set<Byte>)
    requires forall k :: 0 <= k < |pre| ==> pre[k] in cut
    ensures TrimLeft(pre + x, cut) == TrimLeft(x, cut)
    decreases |pre|
  {
    if pre != [] {
      assert (pre + x)[1..] == pre[1..] + x;
      TrimLeftOfCutPrefix(pre[1..], x, cut);
    } else {
      assert pre + x == x;
    }
  }

  lemma {:induction false} TrimRightOfCutSuffix(x: Bytes, post: Bytes, cut: set<Byte>)
    requires forall k :: 0 <= k < |post| ==> post[k] in cut
    ensures TrimRight(x + post, cut) == TrimRight(x, cut)
    decreases |post|
  {
    if post != [] {
      var p := post[..|post| - 1];
      assert (x + post)[..|x + post| - 1] == x + p;
      TrimRightOfCutSuffix(x, p, cut);
    } else {
      assert x + post == x;
    }
  }

  lemma TrimSpaceOfPadded(pre: Bytes, w: Bytes, post: Bytes)
    requires forall k :: 0 <= k < |pre| ==> pre[k] in Whitespace
    requires forall k :: 0 <= k < |post| ==> post[k] in Whitespace
    requires w != [] && w[0] !in Whitespace && w[|w| - 1] !in Whitespace
    ensures TrimSpace(pre + w + post) == w
  {
    assert pre + w + post == pre + (w + post);
    TrimLeftOfCutPrefix(pre, w + post, Whitespace);
    assert TrimLeft(w + post, Whitespace) == w + post;
    TrimRightOfCutSuffix(w, post, Whitespace);
  }

  /** ParseLevel ignores surrounding whitespace and letter case: padding an
      accepted name with spaces and changing the case of any of its letters
      still parses, to the same level. */
  lemma ParseLevelIgnoresCaseAndSpace(pre: Bytes, w: Bytes, post: Bytes, name: Bytes)
    requires forall k :: 0 <= k < |pre| ==> pre[k] in Whitespace
    requires forall k :: 0 <= k < |post| ==> post[k] in Whitespace
    requires name in AcceptedNames && ToLower(w) == name
    ensures ParseLevel(pre + w + post) == ParseLevel(name) && ParseLevel(name).1
  {
    AcceptedNamesAreLowercase(name);
    assert w != [] && w[0] !in Whitespace && w[|w| - 1] !in Whitespace by {
      LetterStaysLetter(w[0], name[0]);
      LetterStaysLetter(w[|w| - 1], name[|name| - 1]);
    }
    TrimSpaceOfPadded(pre, w, post);
    LetterStaysLetter(name[0], name[0]);
    LetterStaysLetter(name[|name| - 1], name[|name| - 1]);
    TrimSpaceKeepsWord(name);
    LowerKeepsLowercase(name);
  }

  lemma LetterStaysLetter(b: Byte, l: Byte)
    requires ToLowerASCII(b) == l && 'a' <= l <= 'z'
    ensures b !in Whitespace
  {
  }

  lemma AcceptedNamesAreLowercase(name: Bytes)
    requires name in AcceptedNames
    ensures name != [] && forall k :: 0 <= k < |name| ==> 'a' <= name[k] <= 'z'
  {
  }

  /** LevelFromEnv: lookup is what looking the variable named key up in
      the environment gives. No key, an unset variable or an unknown value
      give (InfoLevel, false). */
  function LevelFromEnv(key: Bytes, lookup: Option<Bytes>): (r: (Level, bool))
    ensures !r.1 ==> r.0 == InfoLevel
    ensures r.1 <==> key != [] && lookup.Some? && ParseLevel(lookup.value).1
    ensures r.1 ==> r.0 == ParseLevel(lookup.value).0
  {
    if key == [] then (InfoLevel, false)
    else if lookup.None? then (InfoLevel, false)
    else ParseLevel(lookup.value)
  }

  /** LevelFromSlog: slog's numeric levels fall into half-open bands whose
      lower ends are slog's Debug, Info, Warn, Error and Error+4. */
  function LevelFromSlog(level: Int64): (r: Level)
    ensures TraceLevel <= r <= FatalLevel
    ensures r == TraceLevel <==> level < SlogDebug
    ensures r == FatalLevel <==> level >= SlogError + 4
  {
    if level < SlogDebug then TraceLevel
    else if level < SlogInfo then DebugLevel
    else if level < SlogWarn then InfoLevel
    else if level < SlogError then WarnLevel
    else if level < SlogError + 4 then ErrorLevel
    else FatalLevel
  }

  lemma LevelFromSlogMonotone(a: Int64, b: Int64)
    requires a <= b
    ensures LevelFromSlog(a) <= LevelFromSlog(b)
  {
  }

  lemma LevelFromSlogConstants()
    ensures LevelFromSlog(SlogDebug) == DebugLevel
    ensures LevelFromSlog(SlogInfo) == InfoLevel
    ensures LevelFromSlog(SlogWarn) == WarnLevel
    ensures LevelFromSlog(SlogError) == ErrorLevel
  {
  }
}
