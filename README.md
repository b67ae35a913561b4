# logport, modelled in Dafny

logport is a Go logging facade. One interface, `ForLogging`, offers levelled
calls (`Trace` … `Panic`, `Logp`, `Logs`, `Log` with a slog level), builders
(`With`, `WithGroup`, `LogLevel`, `WithLogLevel`) and an `io.Writer` bridge.
Adapters put it in front of zerolog, zap, slog, phuslu/log,
charmbracelet/log and onelog. The package also has its own encoder, PSL,
which writes console lines or one JSON object per line.

This project models the core of logport as Dafny values, functions and
methods, and proves what the code promises about them:

- **`Classify`** (`classify.dfy`, functions.go) is the severity classifier.
  It guesses a level and a message from a raw line by trying rules in a
  fixed order, first match wins: the TLS handshake prefix, a `[LEVEL]`
  bracket, a leading token, a token before a separator, and an `error`
  substring. The byte loops (`levelFromToken`, `indexErrorSubstring`,
  `asciiEqualFold`, `splitLeadingToken`) are methods proved equal to their
  specification functions.
- **`Levels`** (`levels.dfy`, logport.go) holds the nine levels and
  `ParseLevel`, `LevelString` and `LevelFromSlog`.
- **`Bridge`** (`bridge.dfy`, logport.go) is `WriteToLogger` and the
  level-pinned writer. The logger is the sequence of `Logp` calls it receives.
- **`GoBytes`** (`gobytes.dfy`) holds the Go string operations the core uses:
  `TrimSpace`, `ToLower`, `strconv.Quote` and decimal digits.
- **`Json`** (`json.dfy`, adapters/psl/psl.go) is `appendJSONString`.
  Its partner is a decoder for JSON string literals as section 7 of
  RFC 8259 defines them, and escaping then decoding is proved to be the
  identity.
- **`Ansi`** (`ansi.dfy`) holds the ECMA-48 SGR colour sequences. Output is
  a list of literal and SGR pieces, so removing the colour can be stated
  and proved.
- **`PslConsole`** and **`PslStructured`** (`psl_console.dfy`,
  `psl_structured.dfy`) are the console writer and the JSON writer.
  The JSON writer covers the fast path and the coloured path. A small
  reader proves that every JSON line reads back as the time, level,
  message and fields it was written from.
- **`Psl`** (`psl.dfy`) is the PSL adapter: options, level filtering, the
  builders, and `logInternal`, which gives the bytes each call writes.
- **`Keyvals`** and **`Walk`** (`keyvals.dfy`, `walk.dfy`) hold the walk every
  adapter makes over `keyvals ...any` and slog attributes. Pairs become
  fields; a trailing odd value is keyed `arg<n>`; group names are joined
  with `.`. `Keyvals` states the walk once. `Walk` holds the adapters'
  loops, each proved against it.
- **`OneLogger`**, **`ZeroLogger`**, **`ZapLogger`**, **`SLogger`**, **`Phuslu`**
  and **`CharmLogger`** are the adapters. Each has its level tables, its
  level filter, its builders, and the call it makes on the backend. The
  backend itself is outside the model. An adapter is a datatype, because
  the Go adapters are values whose methods return new values.

Go strings are byte strings here (`Bytes = seq<Byte>`, with `Byte` a char
below 256). Go integer widths appear as subset types: `Int8` for `Level`,
`Int64` for slog levels, uint32 for phuslu levels and int32 for charm
levels.

Input that Go gets from outside the program is taken as a parameter:

- the clock, as the already formatted timestamp;
- the environment, as `LevelFromEnv`'s lookup result and `NO_COLOR`;
- terminal detection, as a boolean;
- a backend's own level check, as a function argument.

The comments in logport describe a few behaviours differently from what
the code does. The model follows the code in each case:

- `appendJSONString` is bytewise. An invalid UTF-8 byte decodes to
  `RuneError`, which is at least 0x20, so the byte is copied as it is. The
  branches that would write `�` (adapters/psl/psl.go:1211-1215) cannot
  be reached. Invalid UTF-8 therefore passes through unchanged rather than
  being replaced.
- Without colour, the console writer adds no SGR sequence of its own.
  However, the timestamp, the message and the field keys are copied
  verbatim. A line can therefore still contain an ESC byte that came in
  with them. `PslConsole.NoColourNoSgr` states exactly this: no ansi
  constant is appended, and ESC-free inputs give an ESC-free line.

## Model

| member | source | states |
|---|---|---|
| `GoBytes.ToLowerASCII` | functions.go:135-140 | 'A'..'Z' move up by 32 to 'a'..'z', every other byte is unchanged, and no upper-case letter is left |
| `Classify.AsciiEqualFold` | functions.go:142-152 | true exactly when the lengths agree and every byte of s, lower-cased, equals the byte of t at the same index |
| `Classify.LeadingToken` | functions.go:60-68 | token ++ rest == s; the token holds no space, tab, ':', '\|' or '-'; rest is empty or starts with one of them |
| `Classify.SplitLeadingToken` | functions.go:60-68 | the loop returns the split LeadingToken specifies (the first delimiter byte, or no split) |
| `Classify.StripDelimiters` | functions.go:71-78 | what remains after trimming neither starts nor ends with an isDelimiter byte |
| `Classify.LookupFrom` | functions.go:83-100 | a match names a row of the synonym table at or after i that the token folds to; no match holds iff no such row exists, and gives NoLevel |
| `Classify.TokenLevel` | functions.go:70-101 | an unrecognised token (including one empty after trimming) gives (NoLevel, false) |
| `Classify.TokenLevelRange` | functions.go:83-100 | a recognised token's level lies between Trace and Panic: never NoLevel, never Disabled |
| `Classify.SpellingsDisjoint` | functions.go:84-97 | no spelling appears in two cases of the switch |
| `Classify.TokenLevelOfSpelling` | functions.go:70-101 | a token that trims to any listed spelling, in any ASCII letter case, is recognised with that spelling's level, whatever the case order |
| `Classify.MatchesAny` | functions.go:84-97 | one case of the switch: true iff the token folds to one of the listed spellings |
| `Classify.LevelFromToken` | functions.go:70-101 | the two narrowing loops and the switch compute TokenLevel(token) |
| `Classify.ErrorIndex` | functions.go:112-133 | -1 or an index where "error" occurs case-insensitively, with no occurrence before it |
| `Classify.IndexErrorSubstring` | functions.go:114-133 | the nested scans return ErrorIndex(s), the least match or -1 |
| `Classify.TlsRule` | functions.go:13-17 | settles iff the line starts with "http: TLS handshake error"; the level is Error and the message a suffix of the line |
| `Classify.BracketRule` | functions.go:19-27 | a settled verdict has a level other than NoLevel/Disabled and a message that is a suffix of the line |
| `Classify.LeadingTokenRule` | functions.go:29-35 | as BracketRule, for a recognised leading bare token |
| `Classify.SeparatorRule` | functions.go:37-43 | as BracketRule, for a recognised token before the first ':', '\|' or '-'; the level and message it settles with are given by SeparatorRuleAt |
| `Classify.ErrorSubstringRule` | functions.go:45-55 | settles iff "error" occurs in any letter case; then the level is Error and the message, a suffix of the line, is non-empty; the message itself is given by ErrorSubstringRuleAt |
| `Classify.ClassifyLogLine` | functions.go:7-58 | the level is never Disabled; the message is a suffix of the trimmed line; a blank line gives (NoLevel, ""); NoLevel comes only with the whole trimmed line (ClassifyNoLevelIff gives the converse, and ClassifyTls to ClassifyErrorSubstring give each rule's place in the order) |
| `Classify.ClassifyTls` | functions.go:13-17 | "http: TLS handshake error" + rest is an Error with rest trimmed of spaces and leading ':'/' ' bytes, whatever rest contains (rule 1 beats the "error" fallback) |
| `Classify.BracketRuleAt` | functions.go:19-27 | "[TOKEN]rest" with a recognised TOKEN and its first ']' at index close settles with TOKEN's level and rest trimmed |
| `Classify.ClassifyBracketExample` | functions.go:19-27 | "[INFO] service ready" classifies as (Info, "service ready") |
| `Classify.LeadingTokenRuleAt` | functions.go:29-35 | on "TOKEN: msg" rule 3 settles with TOKEN's level and msg unchanged |
| `Classify.ClassifyLeadingToken` | functions.go:7-35 | "TOKEN: msg" for a recognised TOKEN classifies as (TOKEN's level, msg), e.g. "ERROR: database unavailable" |
| `Classify.SeparatorRuleAt` | functions.go:37-43 | on TOKEN + c + rest, with c the first ':', '\|' or '-' and TOKEN recognised, rule 4 settles with TOKEN's level and rest trimmed |
| `Classify.ClassifyFourth` | functions.go:7-43 | when rules 1 to 3 pass, rule 4's verdict is the classification |
| `Classify.ErrorSubstringRuleAt` | functions.go:45-55 | on pre + word + rest, with word the first "error" in any letter case, rule 5 settles with Error and rest trimmed of spaces and leading ':'/' ' bytes, or the whole line when that leaves nothing |
| `Classify.ClassifyFifth` | functions.go:7-55 | when rules 1 to 4 pass, rule 5's verdict is the classification |
| `Classify.ClassifyErrorSubstring` | functions.go:7-55 | a line rules 1 to 4 pass on, whose first "error" is followed by rest, is an Error whose message is rest trimmed of spaces and leading ':'/' ' bytes, or the whole line when nothing is left |
| `Classify.ClassifyErrorSubstringExample` | adapters_logger_test.go:20 | "operation failed with error code" is an Error whose message is "code" |
| `Classify.ClassifyNoLevelIff` | functions.go:7-57 | a line gets NoLevel exactly when it is blank or none of the five rules settles on it |
| `Classify.ClassifyNoMatch` | functions.go:7-57 | a non-blank line no rule settles on is (NoLevel, the trimmed line) |
| `Classify.ClassifyNoMatchExample` | adapters_logger_test.go:19 | "plain telemetry line" matches no rule: NoLevel, with the line kept as the message |
| `Levels.LevelsOrdered` | logport.go:38-56 | Trace < Debug < Info < Warn < Error < Fatal < Panic < NoLevel < Disabled |
| `Levels.LevelString` | logport.go:352-375 | unnamed values read "info"; every name is 4 to 8 lower-case letters |
| `Levels.LevelOfName` | logport.go:297-318 | accepted iff the text is one of the fourteen names and synonyms; then a named level, otherwise (Info, false) |
| `Levels.ParseLevel` | logport.go:296-319 | an accepted text gives a named level; anything else gives (InfoLevel, false) |
| `Levels.ParseLevelString` | logport.go:296-375 | ParseLevel(LevelString(l)) == (l, true) for each of the nine levels |
| `Levels.ParseLevelIgnoresCaseAndSpace` | logport.go:296-319 | surrounding whitespace and the letter case of an accepted name do not change what it parses to |
| `Levels.LevelFromEnv` | logport.go:322-331 | an empty key or an unset variable gives (Info, false); otherwise the variable's value is parsed |
| `Levels.LevelFromSlog` | logport.go:334-349 | the result lies in Trace..Fatal; Trace iff below slog Debug (-4); Fatal iff at or above slog Error+4 (12) |
| `Levels.LevelFromSlogMonotone` | logport.go:334-349 | LevelFromSlog never decreases as the slog level grows |
| `Levels.LevelFromSlogConstants` | logport.go:334-349 | slog Debug, Info, Warn and Error map to the port's Debug, Info, Warn and Error |
| `Bridge.Lines` | logport.go:229-237 | the lines hold no '\n'; there are none iff the buffer is empty |
| `Bridge.JoinLines` | logport.go:229-237 | joining the lines with '\n' gives the buffer back, up to a final '\n' (nothing but separators is lost) |
| `Bridge.Emit` | logport.go:242-252 | an empty classified message falls back to the trimmed line; a pinned level replaces the classified one; no call has an empty message |
| `Bridge.LineCall` | logport.go:238-252 | at most one call; none iff the line is blank after dropping trailing '\r'; its message is non-empty and a suffix of the trimmed line; a pinned writer's level, otherwise never Disabled |
| `Bridge.LogLine` | logport.go:238-252 | the loop body makes exactly the call LineCall specifies |
| `Bridge.WriteBytesToLogger` | logport.go:228-254 | the loop makes exactly Calls(p, override): the calls of the lines, in order |
| `Bridge.WriteToLogger` | logport.go:200-209 | reports len(p) for every p (0 for an empty one); a nil logger gets no call, otherwise the calls of writeBytesToLogger without override |
| `Bridge.PinnedWrite` | logport.go:216-226 | reports len(p); the calls are writeBytesToLogger's with the pinned level |
| `Bridge.SkipBlank` | logport.go:239-241 | blank lines contribute no call |
| `Bridge.OneCallPerLine` | logport.go:228-254 | exactly one call per non-blank line, in input order, the i-th call being the i-th non-blank line's |
| `Bridge.MessagesNonEmpty` | logport.go:246-252 | no message written to the logger is empty |
| `Bridge.PinnedKeepsMessages` | logport.go:190-195 | a pinned writer makes the same calls as an unpinned one with only the level replaced |
| `Bridge.LineCallIgnoresCR` | logport.go:238 | a trailing '\r' never changes what a line logs |
| `Bridge.CallsOfAppend` | logport.go:228-254 | the calls of two runs of lines are the calls of the first run followed by those of the second |
| `Ansi.StripSgrOfRender` | adapters/psl/psl.go:630-643 | for pieces whose literal text holds no ESC byte, removing every SGR sequence from the rendered bytes leaves exactly the literal text |
| `Ansi.StripColourOf` | adapters/psl/psl.go:630-643 | when coloured pieces and plain pieces carry the same text, stripping SGR sequences from the coloured bytes gives the plain bytes |
| `Json.EscapeByteShape` | adapters/psl/psl.go:1188-1215 | a byte is copied as it is iff it is >= 0x20 and neither '"' nor '\\'; any other byte becomes an escape starting with '\\'; no written byte is below 0x20 |
| `Json.EscapePlain` | adapters/psl/psl.go:1186-1191 | a string with no byte to escape is written unchanged |
| `Json.EscapeHasNoControl` | adapters/psl/psl.go:1183-1225 | the escaped text holds no raw control byte |
| `Json.ControlEscape` | adapters/psl/psl.go:1195-1210 | the switch writes EscapeByte(c): '\\' + the byte for '"' and '\\', \b \f \n \r \t, and \u00 with two lower-case hex digits for any other control byte |
| `Json.AppendJSONString` | adapters/psl/psl.go:1183-1225 | the cursor loop returns buf + '"' + Escape(s) + '"': buf is kept as a prefix and every byte is escaped as EscapeByte says |
| `Json.ParseBodyOfEscape` | adapters/psl/psl.go:1183-1225 | the RFC 8259 string decoder reads Escape(s) followed by '"' back as exactly s, stopping right after the '"' |
| `Json.ParseQuoted` | adapters/psl/psl.go:1183-1225 | decoding what appendJSONString appends as a JSON string gives s back exactly; the literal ends where the encoder stopped (no unescaped '"' inside) |
| `Keyvals.AppendGroup` | adapters/psl/psl.go:608-616 | the old group path is kept as a prefix and at most one name is added |
| `Keyvals.AppendGroupEmpty` | adapters/psl/psl.go:608-611 | appendGroup(g, "") == g |
| `Keyvals.JoinAttrKeyShape` | adapters/psl/psl.go:618-628 | no groups: the key itself; otherwise the groups joined with '.', then '.' and the key unless the key is empty |
| `Keyvals.JoinAttrKeyNested` | adapters/psl/psl.go:590-628 | keying inside a named group gives the same key as keying with the dotted name: group paths compose |
| `Keyvals.AttrFieldsKeyedByGroup` | adapters/psl/psl.go:590-606 | under a non-empty group path every field of an attribute is keyed under the dotted path |
| `Keyvals.AttrsFieldsKeyedByGroup` | adapters/psl/psl.go:583-588 | as AttrFieldsKeyedByGroup, for a list of attributes |
| `Keyvals.FieldsKeyedByGroup` | adapters/psl/psl.go:547-581 | under a non-empty group path every field the walk writes (pairs, trailing value, attributes) is keyed under the dotted path |
| `Keyvals.FieldsOfPairsCount` | adapters/psl/psl.go:547-581 | a list of p key/value pairs and r (0 or 1) trailing values yields p + r fields |
| `Keyvals.FieldsOfPairsAt` | adapters/psl/psl.go:559-568 | the k-th field is the k-th pair: its printed key under the group path, and its value, in input order |
| `Keyvals.FieldsOfPairsTrailing` | adapters/psl/psl.go:569-576 | an odd value out after p pairs is keyed arg<p> under the group path |
| `Keyvals.TrailingKeyCountsFields` | adapters/phuslu/phuslu.go:273-322 | with every field counted, a trailing value is keyed arg<number of fields written before it>, attribute leaves included |
| `Keyvals.FieldsOfFlatten` | adapters/onelogger/onelogger.go:467-506 | walking a normalised key/value list again outside any group gives back the same fields: the normal form is a fixed point |
| `Keyvals.FlattenAt` | adapters/onelogger/onelogger.go:485-498 | the k-th field sits at positions 2k (its key, as a string) and 2k+1 (its value) of the normalised list |
| `Walk.CollectAttr` | adapters/psl/psl.go:590-606 | appends exactly AttrFields(attr, groups) to dst |
| `Walk.CollectAttrs` | adapters/psl/psl.go:583-588 | appends the fields of every attribute, in order |
| `Walk.CollectKeyvals` | adapters/psl/psl.go:547-581 | the loop appends exactly the walk's fields to dst (pairs counted for arg<N>) |
| `Walk.AppendAttrKeyvals` | adapters/onelogger/onelogger.go:508-524 | appends the attribute's fields as alternating string key and value |
| `Walk.AttrsToKeyvals` | adapters/onelogger/onelogger.go:456-465 | the flat key/value list of a list of attributes |
| `Walk.NormalizeKeyvals` | adapters/onelogger/onelogger.go:467-506 | the loop returns the walk's fields flattened: even length, string keys alternating with values, in input order, arg<pairIndex> for a trailing value, keys under the group path |
| `Walk.AppendAttrFields` | adapters/phuslu/phuslu.go:307-322 | writes the attribute's fields and returns the counter advanced by one per field written |
| `Walk.AppendAttrsFields` | adapters/phuslu/phuslu.go:279-283 | writes a list item's fields and advances the counter by their number |
| `Walk.AppendEntryFields` | adapters/phuslu/phuslu.go:273-305 | writes the counting walk's fields and returns argIndex + the number of fields written |
| `PslStructured.WriteStructured` | adapters/psl/psl.go:822-876 | appends exactly `StructuredLine`: the fast path when the line is uncoloured and has no fields, the general `writePair` path otherwise |
| `PslStructured.WriteFast` | adapters/psl/psl.go:824-839 | the fast path appends `{`, the time member when included, the level member, the message member (quoted with escapes when `needsQuote`, copied otherwise) when the message is non-empty, and `}` |
| `PslStructured.AppendFastStringField` | adapters/psl/psl.go:915-927 | appends a comma unless first, the ready-made key prefix, the value as it is and a closing quote; afterwards `first` is false |
| `PslStructured.AppendQuotedField` | adapters/psl/psl.go:929-938 | appends a comma unless first, the key and the value as escaped JSON strings joined by a colon; afterwards `first` is false |
| `PslStructured.WriteGeneral` | adapters/psl/psl.go:841-875 | the general path appends the rendering of `{`, the members in the order time, level, message, fields, and `}` |
| `PslStructured.WriteFixedMembers` | adapters/psl/psl.go:864-870 | appends the rendering of the time (when included), level and message (when non-empty) members, the first without a comma |
| `PslStructured.WriteFieldMembers` | adapters/psl/psl.go:871-873 | the loop over the fields appends one member per field, in order, after the members already written |
| `PslStructured.WritePair` | adapters/psl/psl.go:843-863 | `writePair` appends a comma unless first, the key, a colon and the value chosen by the member's kind (level, message or any value) |
| `PslStructured.WriteJSONKey` | adapters/psl/psl.go:940-948 | appends the key as a JSON string, between cyan and a reset when coloured |
| `PslStructured.WriteJSONLevelValue` | adapters/psl/psl.go:1099-1119 | appends the level's name quoted, in the level's colour (bright green, bright yellow, bright red, blue or faint) and a reset when coloured |
| `PslStructured.WriteJSONMessageValue` | adapters/psl/psl.go:1121-1129 | appends the message as a JSON string, bold and reset when coloured |
| `PslStructured.WriteJSONString` | adapters/psl/psl.go:1131-1141 | appends the JSON string, then a reset when coloured, with green in front only when not dimmed |
| `PslStructured.WriteJSONValue` | adapters/psl/psl.go:950-1017 | appends the value's JSON rendering for either colour setting: strings, Stringers, errors and byte slices as strings, booleans yellow, integers magenta, nil faint, encoder output magenta or its error as a string |
| `PslStructured.WriteJSONValueColoured` | adapters/psl/psl.go:954-1016 | the coloured switch appends the value in its colour followed by a reset |
| `PslStructured.WriteRendering` | adapters/psl/psl.go:968-973 | a value with its own encoder appends the raw JSON (magenta when coloured), or the encoder's error as a JSON string |
| `PslStructured.WriteJSONValuePlain` | adapters/psl/psl.go:1019-1077 | the uncoloured switch appends exactly the coloured rendering without its SGR sequences |
| `PslStructured.WriteTinted` | adapters/psl/psl.go:1143-1181 | appends a colour, the text and a reset when coloured, the bare text otherwise |
| `PslStructured.NamePrefixes` | adapters/psl/psl.go:655-681 | the ready-made prefixes of the short (`ts`/`lvl`/`msg`) and verbose (`time`/`level`/`message`) names are exactly the quoted key, a colon and an opening quote |
| `PslStructured.NoQuoteWorthyIsPlain` | adapters/psl/psl.go:812-820 | a message `needsQuote` rejects contains no byte that JSON escapes, so the fast path may copy it |
| `PslStructured.LevelStringQuote` | adapters/psl/psl.go:1114-1118 | quoting a level name with `strconv.Quote` only adds the two quotes |
| `PslStructured.FastIsGeneral` | adapters/psl/psl.go:824-875 | the fast path writes the same bytes as the uncoloured general path with no fields, provided the timestamp needs no escape |
| `PslStructured.ColourOnlyAddsSgr` | adapters/psl/psl.go:841-875 | removing the SGR sequences from a coloured line leaves exactly the uncoloured line, provided no raw JSON value contains ESC |
| `PslStructured.ReadPlainValue` | adapters/psl/psl.go:1019-1077 | every uncoloured value reads back as the token it encodes (a string with its original bytes, or the bare text) with the rest left over |
| `PslStructured.ReadMembersOf` | adapters/psl/psl.go:843-875 | the members, rendered and closed by `}`, read back key by key as the keys and decoded values in order |
| `PslStructured.GeneralReadsBack` | adapters/psl/psl.go:841-875 | the uncoloured general line is a JSON object whose members are the time, level, message and fields in order, with their values |
| `PslStructured.LineReadsBack` | adapters/psl/psl.go:822-876 | every uncoloured line `writeStructured` writes, whether fast or general, reads back as those members |
| `PslStructured.ColouredLineReadsBack` | adapters/psl/psl.go:822-876 | a coloured line with its SGR sequences removed reads back as the same members |
| `PslStructured.ValueColourOf` | adapters/psl/psl.go:950-1077 | the coloured rendering of a value is its uncoloured rendering with SGR sequences added |
| `Psl.NewWithOptions` | adapters/psl/psl.go:83-128 | a nil writer becomes a discarding one; any mode other than structured is console; the minimum level defaults to Trace; an empty layout becomes DTG (console) or RFC 3339 (JSON); colour needs a terminal, no `NoColor` option and no `NO_COLOR`; JSON colour also needs `ColorJSON`; the cache is used exactly when timestamps are on and the layout is cacheable; no forced level, fields or groups |
| `Psl.TimeFormatOf` | adapters/psl/psl.go:96-103 | an explicit layout is kept; an empty one becomes the mode's default, which is always cacheable |
| `Psl.WriterOf` | adapters/psl/psl.go:84-86 | the writer is never nil: a nil writer becomes the discarding one, any other is kept |
| `Psl.ModeOf` | adapters/psl/psl.go:87-90 | the mode is structured exactly when structured was asked for; anything else is console |
| `Psl.MinLevelOf` | adapters/psl/psl.go:91-94 | a given MinLevel is used; without one the minimum is Trace |
| `Psl.New` | adapters/psl/psl.go:62-64 | a console adapter that never colours JSON |
| `Psl.NewStructured` | adapters/psl/psl.go:70-72 | a structured adapter that colours JSON exactly when colour is enabled |
| `Psl.NewStructuredNoColor` | adapters/psl/psl.go:76-78 | a structured adapter that never colours JSON |
| `Psl.DefaultTimeFormats` | adapters/psl/psl.go:96-107 | without a layout the adapter uses DTG on the console and RFC 3339 for JSON, and uses the cache unless timestamps are off |
| `Psl.CurrentLevel` | adapters/psl/psl.go:446-451 | the forced level when there is one, else the minimum; `LogLevel(m)` makes it m |
| `Psl.ShouldLog` | adapters/psl/psl.go:453-472 | no writer logs nothing; a forced Disabled logs nothing; a forced NoLevel is compared as Info; any other forced level replaces the entry's level; otherwise the level passes when it is not Disabled and is at least the minimum |
| `Psl.Enabled` | adapters/psl/psl.go:359-361 | an enabled record needs a writer and no forced Disabled; without a forced level, a record is enabled iff there is a writer and the level LevelFromSlog reads reaches the minimum |
| `Psl.ShouldLogMonotone` | adapters/psl/psl.go:453-472 | raising an entry's level (short of Disabled) never drops an entry a lower level lets through |
| `Psl.LogLevel` | adapters/psl/psl.go:233-270 | NoLevel becomes the forced level and keeps the minimum; any other level becomes the minimum and clears the forced level; the current level is the one given and nothing else changes |
| `Psl.LogLevelThreshold` | adapters/psl/psl.go:233-270 | after `LogLevel(m)` with m not NoLevel, an entry passes exactly when it is not Disabled and is at least m |
| `Psl.LogLevelNoLevel` | adapters/psl/psl.go:233-253 | after `LogLevel(NoLevel)` every entry is judged as Info against the old minimum |
| `Psl.LogLevelDisabledSilences` | adapters/psl/psl.go:453-472 | after `LogLevel(Disabled)` no entry of a level up to Disabled passes |
| `Psl.LogLevelDisabledPassesAbove` | adapters/psl/psl.go:453-472 | a level above Disabled still passes the `>=` comparison after `LogLevel(Disabled)` |
| `Psl.LogLevelFromEnv` | adapters/psl/psl.go:272-277 | an unset, empty or unparsable variable leaves the adapter unchanged; a parsed level becomes the current level; fields and groups are kept |
| `Psl.NewLogsFromTrace` | adapters/psl/psl.go:91-94 | a fresh adapter without `MinLevel` passes every level from Trace up, except Disabled |
| `Psl.With` | adapters/psl/psl.go:283-309 | the pairs, walked outside any group, are appended to the base fields; nothing else changes |
| `Psl.WithLogLevel` | adapters/psl/psl.go:279-281 | appends one field `loglevel` naming the current level |
| `Psl.WithGroup` | adapters/psl/psl.go:311-333 | a non-empty name opens one more group; an empty one changes nothing |
| `Psl.WithAttrs` | adapters/psl/psl.go:335-358 | the attributes, keyed under the current groups, are appended to the base fields |
| `Psl.WithPairs` | adapters/psl/psl.go:283-309 | `With` over p plain pairs adds exactly p fields, the k-th keyed by the printed k-th key and holding its value |
| `Psl.Emitted` | adapters/psl/psl.go:377-440 | an entry produces a line exactly when its level is not Disabled, the filter passes it and the writer does not discard; the line ends in a newline |
| `Psl.LogInternal` | adapters/psl/psl.go:474-519 | writes nothing for a dropped entry; otherwise writes the line formatted from the base fields followed by the call's keyvals under the groups, and a newline |
| `Psl.Format` | adapters/psl/psl.go:486-510 | the timestamp only when timestamps are on, then the console writer or the JSON writer with short or verbose names, as the mode says |
| `Psl.AttrItems` | adapters/psl/psl.go:368-372 | one keyval per record attribute, in order |
| `Psl.Handle` | adapters/psl/psl.go:364-375 | a record logs its message at `LevelFromSlog` of its level, with its attributes as keyvals |
| `Psl.HandleFields` | adapters/psl/psl.go:364-375 | a handled record's fields are the base fields followed by its attributes keyed under the adapter's groups |
| `Psl.WithGroupKeysRecord` | adapters/psl/psl.go:311-375 | after `WithGroup(name)`, every field a handled record adds has a key that starts with the dotted group path ending in name |
| `Psl.Logs` | adapters/psl/psl.go:385-391 | a level name that `ParseLevel` rejects logs at NoLevel |
| `Psl.LogsByName` | adapters/psl/psl.go:385-391 | a named level's own name logs at that level |
| `Psl.DiscardWritesNothing` | adapters/psl/psl.go:84-86 | an adapter built on a nil or discarding writer never formats a line |
| `Psl.ConsoleWithoutColour` | adapters/psl/psl.go:502-511 | without colour a console line holds no SGR sequence: it is the text of its pieces and a newline |
| `Psl.StructuredReadsBack` | adapters/psl/psl.go:502-511 | an uncoloured structured line without its newline is a JSON object whose members are the time, level, message and every field in order |
| `Psl.ColouredStructuredReadsBack` | adapters/psl/psl.go:502-511 | a coloured structured line with its SGR sequences removed reads back as the same members |
| `PslConsole.NeedsQuote` | adapters/psl/psl.go:812-820 | true exactly when the text holds a control byte, a byte above `~`, a space, a backslash or a double quote |
| `PslConsole.FormatConsoleValue` | adapters/psl/psl.go:786-810 | strings, Stringers and errors are quoted with `strconv.Quote` exactly when `needsQuote` says so; every other value is printed with `fmt.Sprint` |
| `PslConsole.StringValueIsToken` | adapters/psl/psl.go:786-820 | a string-like console value is either bare with no byte `needsQuote` looks for, or a Go string literal in quotes; either way it holds no control byte, so it cannot inject ESC or a line break |
| `PslConsole.ConsoleLevel` | adapters/psl/psl.go:738-759 | every level gets a three-byte tag |
| `PslConsole.ConsoleLevelTags` | adapters/psl/psl.go:738-759 | different named levels (other than Disabled) get tags with different first bytes; only Debug and NoLevel have no colour |
| `PslConsole.TagInitial` | adapters/psl/psl.go:738-759 | the tags are TRC, DBG, INF, WRN, ERR, FTL, PNC and `---`, and Disabled falls to the default INF |
| `PslConsole.WriteConsole` | adapters/psl/psl.go:684-727 | appends exactly the rendering of the timestamp part, the level tag, the message part and one part per field, in that order |
| `PslConsole.WriteTimestamp` | adapters/psl/psl.go:685-694 | when the time is included, appends the timestamp (faint and reset when coloured) and a space; otherwise nothing |
| `PslConsole.WriteLevelTag` | adapters/psl/psl.go:695-702 | appends the tag, in its colour and reset when coloured and the level has a colour |
| `PslConsole.WriteMessage` | adapters/psl/psl.go:703-712 | a non-empty message follows a space, bold and reset when coloured and the level is Info up to Panic; an empty message writes nothing |
| `PslConsole.WriteFields` | adapters/psl/psl.go:713-725 | the loop appends every field's part in order |
| `PslConsole.WriteField` | adapters/psl/psl.go:714-724 | appends a space, the key and `=` (cyan and reset when coloured) and the console form of the value |
| `PslConsole.NoColourNoSgr` | adapters/psl/psl.go:684-727 | without colour the line holds no SGR sequence and is just its literal text |
| `PslConsole.ColourOnlyAddsSgr` | adapters/psl/psl.go:684-727 | the literal text of a coloured line is exactly the uncoloured line |
| `PslConsole.ConsoleExample` | adapters/psl/psl.go:684-727 | `Info("ready", "foo", "bar", "greeting", "hello world")` without time or colour is `INF ready foo=bar greeting="hello world"` |
| `OneLogger.NewWithOptions` | adapters/onelogger/onelogger.go:57-82 | a logger is always made; the minimum defaults to Trace; no base keyvals, groups, forced level or loglevel field; the exit function is kept when given |
| `OneLogger.NewFromLogger` | adapters/onelogger/onelogger.go:85-95 | a nil logger gives the zero adapter, whose minimum is the zero level (Debug); any other logger starts at Trace |
| `OneLogger.ComposeHook` | adapters/onelogger/onelogger.go:565-587 | no hook exactly when timestamps are off (disabled or no layout) and no caller hook is given; otherwise the timestamp hook comes first when timestamps are on, the caller's hook comes last when given, and nothing else is run |
| `OneLogger.NewHooks` | adapters/onelogger/onelogger.go:52-54 | `New` runs exactly one hook: the DTG timestamp |
| `OneLogger.ShouldLog` | adapters/onelogger/onelogger.go:270-288 | a nil logger and a forced Disabled log nothing; a forced NoLevel is compared as Info; any other forced level replaces the entry's level; otherwise a level passes when it is not Disabled and is at least the minimum |
| `OneLogger.ShouldLogUnderWarn` | adapters/onelogger/onelogger.go:270-288 | under a minimum of Warn, Info is dropped and Warn passes |
| `OneLogger.LogLevel` | adapters/onelogger/onelogger.go:119-127 | NoLevel and Disabled become the forced level and keep the minimum; any other level becomes the minimum and clears the forced level; nothing else changes |
| `OneLogger.LogLevelThreshold` | adapters/onelogger/onelogger.go:119-127 | after `LogLevel(m)` with m neither NoLevel nor Disabled, an entry passes exactly when it is not Disabled and is at least m |
| `OneLogger.LogLevelDisabledSilences` | adapters/onelogger/onelogger.go:119-127 | after `LogLevel(Disabled)` no level passes, named or not |
| `OneLogger.LogLevelNoLevel` | adapters/onelogger/onelogger.go:119-127 | after `LogLevel(NoLevel)` every entry is filtered as Info |
| `OneLogger.CurrentLevel` | adapters/onelogger/onelogger.go:555-563 | the forced level when there is one, else the minimum, except that a minimum of 0 (Debug) reads as Info |
| `OneLogger.CurrentLevelOfLogLevel` | adapters/onelogger/onelogger.go:119-127 | `LogLevel` and `currentLevel` agree for every level except Debug, which is reported as Info although Debug entries pass |
| `OneLogger.LogLevelFromEnv` | adapters/onelogger/onelogger.go:112-117 | the variable's level when it parses, applied with `LogLevel`; otherwise the adapter is unchanged |
| `OneLogger.SlogLevelToPort` | adapters/onelogger/onelogger.go:427-442 | the result lies between Trace and Fatal; Trace exactly below slog Debug, Fatal exactly above slog Error |
| `OneLogger.SlogLevelToPortMonotone` | adapters/onelogger/onelogger.go:427-442 | a higher slog level never maps to a lower level |
| `OneLogger.SlogLevelToPortRoundsUp` | adapters/onelogger/onelogger.go:427-442 | compared with `LevelFromSlog`: equal at the named slog levels, never lower, at most one band higher, and different at -3 (Info here, Debug there) |
| `OneLogger.Enabled` | adapters/onelogger/onelogger.go:406-411 | false under a forced Disabled; otherwise true iff onelogger's own translation of the slog level reaches the minimum, with the logger and a forced NoLevel not consulted |
| `OneLogger.EnabledMatchesHandle` | adapters/onelogger/onelogger.go:406-417 | with a logger and no forced level, `Enabled` agrees with the filter `Handle` applies |
| `OneLogger.EnabledWithoutLogger` | adapters/onelogger/onelogger.go:406-417 | the zero adapter reports every level from slog Debug up as enabled, yet `Handle` writes nothing for it |
| `OneLogger.With` | adapters/onelogger/onelogger.go:129-141 | the keyvals, normalized outside any group, are appended to the base keyvals; nothing else changes |
| `OneLogger.WithLogLevel` | adapters/onelogger/onelogger.go:151-163 | switches the loglevel field on and changes nothing else |
| `OneLogger.WithLogLevelIdempotent` | adapters/onelogger/onelogger.go:151-163 | applying `WithLogLevel` twice is the same as once |
| `OneLogger.WithAttrs` | adapters/onelogger/onelogger.go:371-390 | the attributes, keyed under the current groups, are appended to the base keyvals |
| `OneLogger.WithGroup` | adapters/onelogger/onelogger.go:392-404 | a non-empty name opens one more group; an empty one changes nothing |
| `OneLogger.NewChainEntry` | adapters/onelogger/onelogger.go:290-312 | Trace and Debug use DebugWith; Warn uses WarnWith; Error and Panic use ErrorWith; Fatal uses FatalWith; every other level uses InfoWith |
| `OneLogger.Pairs` | adapters/onelogger/onelogger.go:321-327 | `addKeyvals` reads a flat list as whole pairs; a trailing key without a value is dropped |
| `OneLogger.PairsOfFlatten` | adapters/onelogger/onelogger.go:321-327 | a normalized list reads back as exactly the fields it was made from |
| `OneLogger.AddKeyvals` | adapters/onelogger/onelogger.go:321-327 | the loop adds one field per pair, in order, after the fields already on the entry |
| `OneLogger.LogLevelFields` | adapters/onelogger/onelogger.go:314-319 | a `loglevel` field naming the current level exactly when the adapter includes it |
| `OneLogger.Logged` | adapters/onelogger/onelogger.go:243-253 | an entry is written exactly when the filter passes; it carries the message and the chain method for the level |
| `OneLogger.Log` | adapters/onelogger/onelogger.go:243-253 | writes nothing for a filtered entry; otherwise the base keyvals, then the call's keyvals normalized under the groups, then the loglevel field |
| `OneLogger.Build` | adapters/onelogger/onelogger.go:247-252 | the entry holds the base keyvals' pairs, the normalized call fields and the loglevel field, in that order |
| `OneLogger.Logp` | adapters/onelogger/onelogger.go:169-237 | each named level goes to its own method; NoLevel and unnamed levels log at Info; Disabled does nothing; Fatal calls the exit function only when it wrote its entry and one is set; Panic always panics |
| `OneLogger.Logs` | adapters/onelogger/onelogger.go:194-200 | a level name that parses is used; any other logs at NoLevel |
| `OneLogger.PanicLogsAsError` | adapters/onelogger/onelogger.go:226-229 | a Panic entry goes to onelog's Error method, is written under any minimum up to Panic, and the call panics |
| `OneLogger.WithFieldsFirst` | adapters/onelogger/onelogger.go:129-141 | fields added by `With` are written before the call's own fields, in their order |
| `OneLogger.Handled` | adapters/onelogger/onelogger.go:413-425 | a record is written exactly when its level, translated with `slogLevelToPort`, passes the filter |
| `OneLogger.Handle` | adapters/onelogger/onelogger.go:413-425 | writes the record's entry: base keyvals, then the attributes keyed under the groups, then the loglevel field |
| `OneLogger.HandleIsLogOfList` | adapters/onelogger/onelogger.go:413-506 | a record is written as a logging call at its translated level would write the same attributes passed as one `[]slog.Attr` item |
| `ZeroLogger.PortLevelToZero` | adapters/zerologger/zerologger.go:490-513 | every level maps to a named zerolog level; an unnamed level maps to Info |
| `ZeroLogger.ZeroLevelToPort` | adapters/zerologger/zerologger.go:515-538 | every zerolog level maps to a named level; an unknown one maps to Info |
| `ZeroLogger.LevelTablesRoundTrip` | adapters/zerologger/zerologger.go:490-538 | the two tables are inverse on the nine named levels, and keep their numbering |
| `ZeroLogger.SlogLevelToZero` | adapters/zerologger/zerologger.go:409-424 | the result lies between Trace and Fatal; Trace exactly below slog Debug, Fatal exactly above slog Error |
| `ZeroLogger.SlogLevelToZeroMonotone` | adapters/zerologger/zerologger.go:409-424 | a higher slog level never maps to a lower zerolog level |
| `ZeroLogger.SlogLevelToZeroAgainstLevelFromSlog` | adapters/zerologger/zerologger.go:409-424 | compared with `LevelFromSlog`: never lower, equal at the named slog levels, and Info rather than Debug at -3 |
| `ZeroLogger.FieldMapSnoc` | adapters/zerologger/zerologger.go:262-312 | storing one more field sets or overwrites exactly its key |
| `ZeroLogger.FieldMapKeys` | adapters/zerologger/zerologger.go:262-312 | the map has a key exactly for each field's key |
| `ZeroLogger.FieldMapLastWins` | adapters/zerologger/zerologger.go:262-312 | the value under a key is the value of the last field with that key |
| `ZeroLogger.StoreFlat` | adapters/zerologger/zerologger.go:274-277 | storing the scratch slice two items at a time adds its pairs to the map in order |
| `ZeroLogger.StoreAttrs` | adapters/zerologger/zerologger.go:279-289 | the `[]slog.Attr` case stores every attribute's fields, keyed under the groups, in order |
| `ZeroLogger.StoreItem` | adapters/zerologger/zerologger.go:271-289 | the `slog.Attr` and `[]slog.Attr` cases store the item's fields in order |
| `ZeroLogger.FieldsFromKeyvals` | adapters/zerologger/zerologger.go:262-312 | nil for no items; otherwise the map of the walk's fields (pairs keyed by the printed key, a trailing value keyed `arg<n>`, attributes flattened, all under the groups), where a later key overwrites an earlier one |
| `ZeroLogger.FieldsFromKeyvalsExample` | adapters/zerologger/zerologger.go:262-312 | `foo, bar, 99, answer` gives exactly `foo: bar` and `"99": answer` |
| `ZeroLogger.FieldsFromKeyvalsOddCount` | adapters/zerologger/zerologger.go:299-307 | `foo, bar, trailing` gives exactly `foo: bar` and `arg1: trailing` |
| `ZeroLogger.LaterKeyOverwrites` | adapters/zerologger/zerologger.go:290-298 | two pairs with the same key leave only the later value |
| `ZeroLogger.AppendUnique` | adapters/zerologger/zerologger.go:253-260 | the part is appended exactly when it is not already in the list; otherwise the list is returned unchanged |
| `ZeroLogger.UniqueProperties` | adapters/zerologger/zerologger.go:253-260 | appending a part is idempotent, keeps the old list as a prefix, adds only that part, and keeps a list free of repeats |
| `ZeroLogger.NewFromLogger` | adapters/zerologger/zerologger.go:97-99 | the logger is kept as given, with no groups and no forced level |
| `ZeroLogger.NewWithOptions` | adapters/zerologger/zerologger.go:104-140 | JSON exactly when structured; the console writer has no colour when asked or when the writer is not a terminal, and uses DTG unless a layout is given; `ConfigureWriter` runs before the timestamp part is excluded, so a disabled timestamp is always excluded, and only once; timestamps are stamped unless disabled; the level defaults to Trace |
| `ZeroLogger.CurrentLevel` | adapters/zerologger/zerologger.go:483-488 | the forced level, else the logger's level read back through `zerologLevelToPort` |
| `ZeroLogger.ForceNoLevel` | adapters/zerologger/zerologger.go:559-561 | the level-less mode reports NoLevel as the current level |
| `ZeroLogger.ForceNoLevelOfLogLevel` | adapters/zerologger/zerologger.go:559-561 | the level-less mode holds after `LogLevel(m)` iff m is NoLevel |
| `ZeroLogger.LogLevel` | adapters/zerologger/zerologger.go:169-175 | NoLevel is forced and the logger kept; any other level becomes the logger's level and clears the forced level |
| `ZeroLogger.CurrentLevelOfLogLevel` | adapters/zerologger/zerologger.go:169-175 | `LogLevel` followed by `currentLevel` gives back every named level; an unnamed level reads as Info |
| `ZeroLogger.LogLevelFromEnv` | adapters/zerologger/zerologger.go:162-167 | the variable's level when it parses, applied with `LogLevel`; otherwise the adapter is unchanged |
| `ZeroLogger.Attach` | adapters/zerologger/zerologger.go:151-155 | a non-empty map is added to the logger's context; an empty one changes nothing |
| `ZeroLogger.With` | adapters/zerologger/zerologger.go:147-156 | the items' map, read without the adapter's groups, is attached to the logger's context |
| `ZeroLogger.WithKeepsLevel` | adapters/zerologger/zerologger.go:147-156 | `With` changes neither the groups nor the current level |
| `ZeroLogger.WithLogLevel` | adapters/zerologger/zerologger.go:158-160 | attaches one map holding `loglevel` with the current level's name |
| `ZeroLogger.WithGroup` | adapters/zerologger/zerologger.go:402-407 | an empty name changes nothing; any other is appended to the groups |
| `ZeroLogger.WithAttrs` | adapters/zerologger/zerologger.go:391-400 | the attributes, keyed under the adapter's groups, are attached as one map |
| `ZeroLogger.EventLevel` | adapters/zerologger/zerologger.go:540-558 | Fatal and Panic always use their own events; the other levels use their own level, or `Log()` when NoLevel is forced |
| `ZeroLogger.Log` | adapters/zerologger/zerologger.go:177-251 | each logging method asks for its event with the message and the items' map under the groups; only Fatal exits and only Panic panics |
| `ZeroLogger.ForcedNoLevelIsPlain` | adapters/zerologger/zerologger.go:540-562 | after `LogLevel(NoLevel)` every level from Trace to Error is logged through `Log()` |
| `ZeroLogger.Enabled` | adapters/zerologger/zerologger.go:371-376 | true when NoLevel is forced; otherwise exactly when the translated record level is at least the logger's level |
| `ZeroLogger.EnabledAfterLogLevel` | adapters/zerologger/zerologger.go:169-175 | after `LogLevel(m)`, m not NoLevel, a record is enabled exactly when its translated level reaches m's; after Disabled or Panic no record is enabled |
| `ZeroLogger.Handle` | adapters/zerologger/zerologger.go:378-389 | the record's attributes under the groups, at the translated level (or `Log()` when NoLevel is forced); zerolog neither exits nor panics for it |
| `ZeroLogger.MarshalJson` | adapters/zerologger/zerologger.go:50-68 | at most the five JSON fields, with the level first when it is set |
| `ZeroLogger.Member` | adapters/zerologger/zerologger.go:51-57 | a member is written exactly when its field is not empty (`omitempty`) |
| `ZeroLogger.MarshalZeroOptions` | adapters/zerologger/zerologger.go:60-68 | options with nothing set marshal to the empty object |
| `ZeroLogger.UnmarshalJson` | adapters/zerologger/zerologger.go:71-83 | an error leaves the options as they were; success clears `ConfigureWriter`; a JSON null succeeds; input that is neither an object nor null is an error |
| `ZeroLogger.UnmarshalNull` | adapters/zerologger/zerologger.go:71-83 | a JSON null reads like {}: no error, the five fields reset to their zero values (which marshal back to {}) and `ConfigureWriter` cleared |
| `ZeroLogger.OptionsJsonRoundTrip` | adapters/zerologger/zerologger.go:60-83 | marshalling then unmarshalling gives back the five fields, whatever the options held before, and clears `ConfigureWriter` |
| `ZeroLogger.UnmarshalWrongKind` | adapters/zerologger/zerologger.go:71-83 | a string where a boolean belongs is an error and leaves the options untouched |
| `ZapLogger.PortLevelToZap` | adapters/zaplogger/zap.go:518-537 | Trace, Debug and NoLevel, and only they, map to zap Debug; Disabled, and only it, maps to the invalid level; an unnamed level maps to Info; DPanic is never produced |
| `ZapLogger.ZapLevelToPort` | adapters/zaplogger/zap.go:416-435 | every zap level maps to a named level other than Trace and NoLevel; DPanic and Fatal, and only they, map to Fatal |
| `ZapLogger.LevelTablesRoundTrip` | adapters/zaplogger/zap.go:416-537 | through zap and back every named level except Trace and NoLevel is itself; those two come back as Debug |
| `ZapLogger.PanicBelowFatal` | adapters/zaplogger/zap.go:518-537 | Panic is above Fatal in logport but below it in zap |
| `ZapLogger.SlogLevelToZap` | adapters/zaplogger/zap.go:347-362 | a slog level maps to Debug, Info, Warn, Error or Fatal, never to Panic or DPanic |
| `ZapLogger.SlogLevelToZapIsLevelFromSlog` | adapters/zaplogger/zap.go:347-362 | the slog mapping equals logport's LevelFromSlog followed by portLevelToZap |
| `ZapLogger.SlogLevelToZapMonotone` | adapters/zaplogger/zap.go:347-362 | a higher slog level never maps to a lower zap level |
| `ZapLogger.NewFromLogger` | adapters/zaplogger/zap.go:66-71 | a nil logger gives the no-op logger; otherwise an adapter with no fields, groups or levels |
| `ZapLogger.ShouldLog` | adapters/zaplogger/zap.go:500-509 | without a logger nothing passes; without a minimum everything passes; otherwise a level passes iff its zap counterpart is at least the minimum |
| `ZapLogger.LogLevel` | adapters/zaplogger/zap.go:132-144 | without a logger nothing changes; otherwise the minimum becomes the level's zap counterpart and the level is remembered |
| `ZapLogger.CurrentLevel` | adapters/zaplogger/zap.go:364-372 | the remembered level first, else the minimum read back through zapLevelToPort, else Info |
| `ZapLogger.CurrentLevelOfLogLevel` | adapters/zaplogger/zap.go:132-144 | with a logger, the level LogLevel was given is the current level afterwards |
| `ZapLogger.ShouldLogAfterLogLevel` | adapters/zaplogger/zap.go:132-144 | after LogLevel(m) a level passes iff its zap counterpart is at least m's; after Disabled only Disabled passes; after NoLevel everything passes |
| `ZapLogger.LogLevelFromEnv` | adapters/zaplogger/zap.go:125-130 | a set, parseable variable sets the level it names; otherwise the adapter is unchanged |
| `ZapLogger.WithLogLevel` | adapters/zaplogger/zap.go:146-151 | the result is the adapter with the loglevel field turned on and nothing else changed |
| `ZapLogger.WithLogLevelIdempotent` | adapters/zaplogger/zap.go:146-151 | turning the loglevel field on twice is the same as once |
| `ZapLogger.AppendLogLevelField` | adapters/zaplogger/zap.go:374-379 | when on, exactly one loglevel field naming the current level is appended last; when off, the fields are unchanged |
| `ZapLogger.KeyvalsToFields` | adapters/zaplogger/zap.go:381-414 | the fields are exactly the shared keyval walk of the items under the groups |
| `ZapLogger.AttrsToFields` | adapters/zaplogger/zap.go:437-446 | the fields are exactly the attributes' leaves under the groups |
| `ZapLogger.Attach` | adapters/zaplogger/zap.go:106-115 | the new fields follow the logger's existing ones; no fields, no change |
| `ZapLogger.With` | adapters/zaplogger/zap.go:106-115 | without a logger nothing changes; otherwise the items' fields under the adapter's groups are attached |
| `ZapLogger.WithAttrs` | adapters/zaplogger/zap.go:329-338 | without a logger nothing changes; otherwise the attributes' fields under the groups are attached |
| `ZapLogger.WithGroup` | adapters/zaplogger/zap.go:340-345 | an empty name changes nothing; otherwise the name is appended to the groups |
| `ZapLogger.Called` | adapters/zaplogger/zap.go:192-296 | an entry is written iff there is a logger and the method is Fatal, Panic or passes shouldLog; it carries the method's zap level (Debug for Trace) and the message; only Panic without a logger panics |
| `ZapLogger.LogpMethod` | adapters/zaplogger/zap.go:157-178 | Trace, Debug and NoLevel route to Debug, Disabled to nothing, Info to Panic to themselves, an unnamed level to Info |
| `ZapLogger.Call` | adapters/zaplogger/zap.go:192-296 | the outcome of the method is the one Called specifies |
| `ZapLogger.Logp` | adapters/zaplogger/zap.go:157-178 | the outcome is that of the method the level routes to |
| `ZapLogger.LogpRouting` | adapters/zaplogger/zap.go:157-178 | Disabled writes nothing; Trace and NoLevel are logged exactly as Debug; an unnamed level exactly as Info |
| `ZapLogger.DisabledStillPassesFatal` | adapters/zaplogger/zap.go:132-144 | after LogLevel(Disabled) every level but Fatal and Panic is dropped, and those two still reach zap |
| `ZapLogger.Logs` | adapters/zaplogger/zap.go:180-186 | a name that parses is logged at its level; any other name is logged as Debug |
| `ZapLogger.Enabled` | adapters/zaplogger/zap.go:302-311 | true iff there is a logger, the mapped level is at least the minimum and zap's core enables it |
| `ZapLogger.Handled` | adapters/zaplogger/zap.go:313-327 | an entry is written iff Enabled holds; it has the mapped level, the message, the attributes' fields under the groups and the loglevel field |
| `ZapLogger.Handle` | adapters/zaplogger/zap.go:313-327 | the entry is the one Handled specifies |
| `SLogger.NewWithOptions` | adapters/slogger/slogger.go:44-61 | a logger over the handler with no derivations, nothing forced, the loglevel key off, and a minimum of Trace unless MinLevel is given |
| `SLogger.NewWithLogger` | adapters/slogger/slogger.go:35-41 | a nil logger gives the no-op logger; otherwise the adapter NewWithOptions builds with no minimum |
| `SLogger.ShouldLog` | adapters/slogger/slogger.go:210-229 | a nil logger or a forced Disabled lets nothing through; unforced, a level passes iff it is not Disabled and is at least the minimum; a forced NoLevel compares as Info; any other forced level replaces the entry's level |
| `SLogger.ShouldLogUnderWarn` | adapters/slogger/slogger.go:210-229 | under a Warn minimum Info is dropped and Error passes |
| `SLogger.LogLevel` | adapters/slogger/slogger.go:88-94 | NoLevel is forced and keeps the minimum; any other level becomes the minimum and clears the forced level; nothing else changes |
| `SLogger.LogLevelThreshold` | adapters/slogger/slogger.go:88-94 | after LogLevel(m), m not NoLevel, a level passes iff it is not Disabled and at least m; after LogLevel(Disabled) no named level passes |
| `SLogger.LogLevelFromEnv` | adapters/slogger/slogger.go:96-101 | a set, parseable variable sets the level it names; otherwise the adapter is unchanged |
| `SLogger.CurrentLevel` | adapters/slogger/slogger.go:196-201 | the forced level if there is one, else the minimum |
| `SLogger.CurrentLevelOfLogLevel` | adapters/slogger/slogger.go:88-94 | the level LogLevel was given is the current level afterwards |
| `SLogger.PortLevelToSlog` | adapters/slogger/slogger.go:264-283 | every level lands between slog Debug-4 and Error+4; NoLevel and unnamed levels read as Info |
| `SLogger.SlogLevelsRoundTrip` | adapters/slogger/slogger.go:264-283 | LevelFromSlog undoes portLevelToSlog from Trace to Fatal; Panic comes back as Fatal and NoLevel as Info |
| `SLogger.PortLevelToSlogMonotone` | adapters/slogger/slogger.go:264-283 | on Trace to Panic a higher level never maps lower |
| `SLogger.WithLogLevel` | adapters/slogger/slogger.go:103-108 | the result is the adapter with the loglevel key turned on and nothing else changed |
| `SLogger.WithLogLevelIdempotent` | adapters/slogger/slogger.go:103-108 | turning the loglevel key on twice is the same as once |
| `SLogger.With` | adapters/slogger/slogger.go:110-116 | no items or a nil logger change nothing; otherwise the items are added to the logger's handler and nothing else changes |
| `SLogger.WithAttrs` | adapters/slogger/slogger.go:248-254 | without a handler nothing changes; otherwise the attributes are added to the handler and the levels are kept |
| `SLogger.WithGroup` | adapters/slogger/slogger.go:256-262 | without a handler nothing changes; otherwise the group is opened on the handler, the name passed as it is |
| `SLogger.BuildersKeepLevel` | adapters/slogger/slogger.go:103-116 | With, WithAttrs, WithGroup and WithLogLevel leave the current level unchanged |
| `SLogger.AppendLogLevelKeyvals` | adapters/slogger/slogger.go:203-208 | when on, "loglevel" and the current level's name are appended last; when off, the items are unchanged |
| `SLogger.Logp` | adapters/slogger/slogger.go:137-143 | a call is made iff shouldLog passes; it has the level's slog counterpart, the message, and the items with the loglevel pair |
| `SLogger.LogpLevelReadsBack` | adapters/slogger/slogger.go:137-143 | a slog handler reads back through LevelFromSlog the level Logp was given, from Trace to Fatal |
| `SLogger.Log` | adapters/slogger/slogger.go:126-135 | a call is made iff shouldLog passes for the level LevelFromSlog reads; the slog level goes on unchanged |
| `SLogger.Logs` | adapters/slogger/slogger.go:145-151 | a name that parses is logged at its level; any other name is logged as NoLevel |
| `SLogger.Called` | adapters/slogger/slogger.go:157-172 | each level method makes its Logp call; Fatal then exits and Panic then panics, whether or not anything was logged |
| `SLogger.Enabled` | adapters/slogger/slogger.go:231-233 | true iff shouldLog passes for the level LevelFromSlog reads |
| `SLogger.Handle` | adapters/slogger/slogger.go:235-246 | a record is passed on iff Enabled holds and there is a handler; it keeps level and message, with the loglevel attribute added last when on |
| `Phuslu.PortLevelToPhuslu` | adapters/phuslu/phuslu.go:585-606 | Trace and NoLevel, and only they, map to phuslu Trace; Disabled, and only it, maps to the level above Panic; an unnamed level maps to Info |
| `Phuslu.PhusluLevelToPort` | adapters/phuslu/phuslu.go:608-627 | phuslu's seven levels map to Trace to Panic in order; any other value maps to Info |
| `Phuslu.LevelTablesRoundTrip` | adapters/phuslu/phuslu.go:585-627 | through phuslu and back Trace to Panic are themselves; NoLevel comes back as Trace and Disabled as Info |
| `Phuslu.PortLevelToPhusluMonotone` | adapters/phuslu/phuslu.go:585-606 | on Trace to Panic a higher level never maps lower |
| `Phuslu.SlogLevelToPhuslu` | adapters/phuslu/phuslu.go:446-461 | the result lies between Trace and Fatal; it is Trace exactly below slog Debug and Fatal exactly from Error+4 |
| `Phuslu.SlogLevelToPhusluIsLevelFromSlog` | adapters/phuslu/phuslu.go:446-461 | the slog mapping equals logport's LevelFromSlog followed by portLevelToPhuslu |
| `Phuslu.SlogLevelToPhusluMonotone` | adapters/phuslu/phuslu.go:446-461 | a higher slog level never maps lower |
| `Phuslu.NewWithOptions` | adapters/phuslu/phuslu.go:27-36 | a logger at Info, or at whatever Configure makes of it, with no fields, groups or forced level |
| `Phuslu.NewFromLogger` | adapters/phuslu/phuslu.go:39-41 | the logger as given, nil included, with no fields and no forced level |
| `Phuslu.LogLevel` | adapters/phuslu/phuslu.go:56-67 | without a logger nothing changes; NoLevel is forced and leaves the logger's level alone; any other level sets the logger's level to its phuslu counterpart and clears the forced level |
| `Phuslu.ForceNoLevel` | adapters/phuslu/phuslu.go:642-644 | the level-less mode needs a logger and reports NoLevel as the current level |
| `Phuslu.ForceNoLevelOfLogLevel` | adapters/phuslu/phuslu.go:643-645 | with a logger, forceNoLevel holds after LogLevel(m) iff m is NoLevel |
| `Phuslu.LogLevelFromEnv` | adapters/phuslu/phuslu.go:69-74 | a set, parseable variable sets the level it names; otherwise the adapter is unchanged |
| `Phuslu.CurrentLevel` | adapters/phuslu/phuslu.go:574-583 | the forced level first; else Info without a logger; else the logger's level read back |
| `Phuslu.CurrentLevelOfLogLevel` | adapters/phuslu/phuslu.go:574-583 | with a logger, the named level LogLevel was given is the current level afterwards, except that Disabled reads back as Info |
| `Phuslu.WithLogLevel` | adapters/phuslu/phuslu.go:76-81 | the result is the adapter with the loglevel field turned on and nothing else changed |
| `Phuslu.WithLogLevelIdempotent` | adapters/phuslu/phuslu.go:76-81 | turning the loglevel field on twice is the same as once |
| `Phuslu.With` | adapters/phuslu/phuslu.go:124-139 | no items or no logger change nothing; otherwise the items, normalised outside any group, are appended to the base list |
| `Phuslu.WithBaseIsNormal` | adapters/phuslu/phuslu.go:463-502 | the normalised list, walked again, gives back the same fields it was built from |
| `Phuslu.WithAttrs` | adapters/phuslu/phuslu.go:424-436 | the attributes' key/value pairs under the groups are appended to the base list and nothing else changes |
| `Phuslu.WithGroup` | adapters/phuslu/phuslu.go:438-444 | an empty name changes nothing; otherwise the name is appended to the groups |
| `Phuslu.AppendLogLevel` | adapters/phuslu/phuslu.go:629-636 | when on, exactly one loglevel field naming the current level is appended last; when off, the fields are unchanged |
| `Phuslu.EntryLevel` | adapters/phuslu/phuslu.go:149-160 | under a forced NoLevel a method below Fatal asks for a level-less entry; otherwise, and always for Fatal and Panic, for its own phuslu level |
| `Phuslu.Called` | adapters/phuslu/phuslu.go:149-251 | an entry is written iff there is a logger and phuslu admits the entry's level; it is the base list, the call's fields and the loglevel field; Panic panics exactly when nothing is written |
| `Phuslu.LogEntry` | adapters/phuslu/phuslu.go:259-271 | the entry is the base list, the call's items as fields with every field counted, the loglevel field and the message |
| `Phuslu.Call` | adapters/phuslu/phuslu.go:149-251 | the outcome of the method is the one Called specifies |
| `Phuslu.TrailingKeyCountsEveryField` | adapters/phuslu/phuslu.go:273-305 | in a written entry, a trailing value without a key is the last field before the optional loglevel field, keyed arg<n> under the groups, n the number of fields written before it |
| `Phuslu.LogLevelThreshold` | adapters/phuslu/phuslu.go:56-67 | after LogLevel(m) a method writes iff its level is at least m; after LogLevel(Disabled) none writes, Fatal included, and Panic panics |
| `Phuslu.ForcedNoLevelWritesPlain` | adapters/phuslu/phuslu.go:149-160 | under a forced NoLevel every method below Fatal writes a level-less entry, whatever the logger's level |
| `Phuslu.Logged` | adapters/phuslu/phuslu.go:87-110 | Trace to Panic call their methods; NoLevel writes a level-less entry; Disabled writes nothing; an unnamed level is logged as Info |
| `Phuslu.Logp` | adapters/phuslu/phuslu.go:87-110 | the outcome is the one Logged specifies |
| `Phuslu.Log` | adapters/phuslu/phuslu.go:83-85 | a slog level is logged as Logp logs the level LevelFromSlog reads |
| `Phuslu.Logs` | adapters/phuslu/phuslu.go:112-118 | a name that parses is logged at its level; any other name is logged as NoLevel |
| `Phuslu.Enabled` | adapters/phuslu/phuslu.go:378-388 | false without a logger; true under a forced NoLevel; otherwise true iff the record's phuslu level is at least the logger's |
| `Phuslu.Handled` | adapters/phuslu/phuslu.go:390-422 | a written entry carries the message, the base list followed by the record's attributes under the groups, and the loglevel field; it has no level under a forced NoLevel and the record's phuslu level otherwise |
| `Phuslu.HandleAgreesWithEnabled` | adapters/phuslu/phuslu.go:378-422 | Handle writes an entry exactly when Enabled says it would |
| `Phuslu.Handle` | adapters/phuslu/phuslu.go:390-422 | the entry is the one Handled specifies |
| `CharmLogger.PortLevelToCharm` | adapters/charmlogger/charm.go:258-275 | Trace, Debug and NoLevel, and only they, map to charm Debug; Fatal and Panic, and only they, to Fatal; Disabled, and only it, to the level above Fatal; an unnamed level to Info |
| `CharmLogger.PortLevelToCharmMonotone` | adapters/charmlogger/charm.go:258-275 | on Trace to Panic a higher level never maps lower, and Disabled lies above all of them |
| `CharmLogger.SlogLevelToCharm` | adapters/charmlogger/charm.go:184-199 | the result is one of charm's five levels; Debug exactly up to slog Debug, Fatal exactly above slog Error, and in between the band closed above at the level |
| `CharmLogger.SlogLevelToCharmMonotone` | adapters/charmlogger/charm.go:184-199 | a higher slog level never maps lower |
| `CharmLogger.SlogLevelToCharmAtNamedLevels` | adapters/charmlogger/charm.go:184-199 | on slog's four named levels the table agrees with LevelFromSlog then portLevelToCharm; just above Debug it rounds up to Info where LevelFromSlog reads Debug |
| `CharmLogger.NormalizeCharmKeyvals` | adapters/charmlogger/charm.go:283-322 | the result is the flat key/value list of the items' fields under the groups |
| `CharmLogger.NormalizedArePairs` | adapters/charmlogger/charm.go:283-322 | the normal form has even length, every key position holds a string, and under groups every key starts with the groups' dotted path |
| `CharmLogger.NormalizeIdempotent` | adapters/charmlogger/charm.go:283-322 | normalising the normal form again, outside any group, changes nothing |
| `CharmLogger.NewWithOptions` | adapters/charmlogger/charm.go:28-30 | a logger at the options' level with no items, groups or forced level |
| `CharmLogger.New` | adapters/charmlogger/charm.go:21-26 | a logger at Info with nothing forced |
| `CharmLogger.LogLevel` | adapters/charmlogger/charm.go:44-55 | without a logger nothing changes; NoLevel is forced and leaves the logger alone; any other level sets the logger's level to its charm counterpart and clears the forced level |
| `CharmLogger.ForceNoLevel` | adapters/charmlogger/charm.go:276-278 | the level-less mode needs a logger |
| `CharmLogger.ForceNoLevelOfLogLevel` | adapters/charmlogger/charm.go:276-278 | the level-less mode holds after `LogLevel(m)` iff there is a logger and m is NoLevel |
| `CharmLogger.With` | adapters/charmlogger/charm.go:57-66 | no items or no logger change nothing; otherwise the items, normalised outside any group, are attached to the logger |
| `CharmLogger.WithAttrs` | adapters/charmlogger/charm.go:168-174 | no attributes or no logger change nothing; otherwise the attributes' pairs under the groups are attached to the logger |
| `CharmLogger.WithGroup` | adapters/charmlogger/charm.go:176-182 | an empty name changes nothing; otherwise the name is appended to the groups |
| `CharmLogger.BuildersKeepLevel` | adapters/charmlogger/charm.go:176-182 | WithGroup keeps the logger's level and the forced level |
| `CharmLogger.Written` | adapters/charmlogger/charm.go:68-106 | charm writes a Print always and a levelled call iff its level is at least the logger's; the record holds the attached items and the call's own |
| `CharmLogger.CharmMethod` | adapters/charmlogger/charm.go:68-131 | under a forced NoLevel the methods below Fatal call Print; otherwise each calls its charm counterpart, Trace as Debug; Fatal calls Fatal and Panic calls Error |
| `CharmLogger.Called` | adapters/charmlogger/charm.go:68-131 | Panic always panics; without a logger Trace returns, Panic only panics and the others reach the nil logger; with one, the record is what charm writes for the method, and Fatal goes on to charm's exit |
| `CharmLogger.Call` | adapters/charmlogger/charm.go:68-131 | the outcome is the one Called specifies for the items normalised under the groups |
| `CharmLogger.LogLevelThreshold` | adapters/charmlogger/charm.go:44-55 | after LogLevel(l) a method below Fatal is written iff its charm level is at least l's; after LogLevel(Disabled) nothing is written and Panic still panics |
| `CharmLogger.PanicLogsAsError` | adapters/charmlogger/charm.go:113-119 | under LogLevel(Fatal) a Panic is not written although a Fatal is |
| `CharmLogger.ForcedNoLevelPrints` | adapters/charmlogger/charm.go:68-131 | under a forced NoLevel every method below Fatal writes a level-less Print, whatever the logger's level |
| `CharmLogger.Enabled` | adapters/charmlogger/charm.go:134-142 | false without a logger; true under a forced NoLevel; otherwise true iff the record's charm level is at least the logger's |
| `CharmLogger.SlogLevelAboveError` | adapters/charmlogger/charm.go:161-163 | slog's name for a level above Error is ERROR+ followed by the decimal distance |
| `CharmLogger.HandleLevel` | adapters/charmlogger/charm.go:144-166 | Print exactly under a forced NoLevel; up to slog Error the band closed above; above Error, charm's Error |
| `CharmLogger.Handled` | adapters/charmlogger/charm.go:144-166 | a written record has the message, the chosen level and the attributes' pairs under the groups; above Error it also carries slog_level and slog's name for the level |
| `CharmLogger.HandleAgreesWithEnabled` | adapters/charmlogger/charm.go:134-166 | up to slog Error, Handle writes exactly when Enabled says it would |
| `CharmLogger.EnabledAboveErrorButDropped` | adapters/charmlogger/charm.go:134-166 | above Error, Enabled checks charm's Fatal while Handle writes at Error, so under LogLevel(Fatal) such a record is enabled yet dropped |
| `CharmLogger.Handle` | adapters/charmlogger/charm.go:144-166 | the record is the one Handled specifies |

## Left out

- Clock and timestamp cache: `timeCache` (sync.Once, a ticker goroutine, atomic.Value) and `time.Now` are concurrency and wall-clock time. The formatted timestamp is a parameter.
- Buffer reuse and I/O: `scratchPool` (sync.Pool) and the writer's `Write` are not modelled. The model returns the bytes a call would write. A discarding writer is modelled as writing nothing.
- Process exit and panics: `os.Exit` in the Fatal methods and `panic` in the Panic methods have no Dafny counterpart. Where an adapter's own behaviour depends on them, the outcome records them as flags (`exits`, `fatal`, `panics`).
- Printf-style calls: `Logf`, `Debugf` … `Tracef` and `formatMessage` go through `fmt.Sprintf`, which is not modelled. Each equals the corresponding `Logp` call on a message it formats first.
- Trace context: `WithTrace`, trace.go and the context helpers (`ContextWithLogger`, `LoggerFromContext`) handle OpenTelemetry span data and context plumbing. Neither is part of this model.
- `noopLogger`: it does nothing. Where a builder returns it, the model returns `None`.
- Environment and terminals: `os.LookupEnv`, `os.Getenv("NO_COLOR")`, `isTerminal` and terminal_windows.go query the host. Their answers are parameters.
- Float formatting: float values are printed by `strconv.AppendFloat`, and other foreign values by `json.Marshal`, `fmt.Sprint`, `Stringer`, `error` and `time.Time.Format`. A `Keyvals.Foreign` value carries these renderings as data.
- `PslConsole.FormatConsoleValue`: a `time.Time` value is modelled as a `Stringer`, so its text is the value's printed form. The time-specific case of `formatConsoleValue` is not modelled separately.
- `GoBytes.Quote`: ASCII is escaped exactly as `strconv.Quote` escapes it. Bytes 0x80 and above are copied unchanged; Go would decode UTF-8 and escape invalid or non-printable runes.
- `GoBytes.TrimSpace`: only the ASCII bytes that `unicode.IsSpace` accepts are trimmed. Unicode spaces such as U+0085 and U+00A0 are not.
- `slog.Value.Resolve` and `LogValuer`: an attribute is already resolved. `Keyvals.Attr` is a leaf or a group.
- `appendSafeStringField` (adapters/psl/psl.go:886-913) is reached only when a level or message prefix is missing. Both name tables define every prefix (`PslStructured.NamePrefixes`), so it is never called.
- Third-party backends: zerolog, zap, slog handlers, phuslu/log, charmbracelet/log and onelog do their own encoding, writing and level checks. The model keeps only what the adapter hands them, plus the one check each adapter relies on. For phuslu and charm, that check is the logger's level threshold. For zap it is the core's `Enabled`, which is a parameter.
- `OneLogger.Build`: the entry holds each field's key and value. `addField` chooses the onelog chain method (`String`, `Int`, `Int64`, `Bool`, `Float`, `Err` or `Any`) from the value's Go type, and a `uint` above MaxInt64 falls to `Any`. That choice is not modelled.
- `ZeroLogger.StoreFlat`: the model stops at the map that `fieldsFromKeyvals` builds. `addFields` then walks the map in Go's unspecified order and picks a zerolog field method for each value's type. Neither the order nor the dispatch is modelled.
- zap's `buildLogger`, its encoder configuration and its core are left out. The core's level decision is a function argument.
- The benchmarks, the example program and the `_test.go` files are not part of this model.
