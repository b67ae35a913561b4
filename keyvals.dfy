/** The values adapters receive as `keyvals ...any`, slog attributes, and the
    walk every adapter makes over them to turn them into keyed fields
    (psl's collectKeyvals, normalizeKeyvals in onelogger, phuslu and charm,
    zerologger's fieldsFromKeyvals, zap's keyvalsToFields and phuslu's
    appendEntryFields). */
module Keyvals {
  import opened GoBytes

  /** A Go value as the core distinguishes it. Formatting the core does not
      do itself (floats, json.Marshal, String and Error methods) is carried
      as data: a Foreign value is any other value, with what fmt.Sprint
      prints for it and what encoding it as JSON gives. */
  datatype Value =
    | Str(s: Bytes)                          // string
    | Text(s: Bytes)                         // fmt.Stringer or error (time.Time among them): what String()/Error() return
    | Bool(b: bool)
    | Int(i: Int64)                          // every signed integer kind, widened
    | Uint(u: Uint64)                        // every unsigned integer kind, widened
    | Nil
    | ByteSlice(bytes: Bytes)                // []byte
    | Foreign(printed: Bytes, json: Rendering)
    | AttrV(attr: Attr)                      // slog.Attr
    | AttrList(attrs: seq<Attr>, json: Rendering) // []slog.Attr

  /** What encoding a foreign value as JSON gives: raw JSON bytes, or the
      text of the error that stopped it (written as a JSON string). */
  datatype Rendering = RawJson(bytes: Bytes) | ErrorText(text: Bytes)

  /** slog.Attr, its value already resolved: a leaf or a group. */
  datatype Attr = Attr(key: Bytes, val: AttrValue)
  datatype AttrValue = Leaf(v: Value) | Group(attrs: seq<Attr>)

  /** One keyed field (psl's kv, a zap.Field, an entry field). */
  datatype Field = Field(key: Bytes, value: Value)

  /** Items the walks switch on instead of reading them as a key. */
  predicate IsAttrItem(v: Value) { v.AttrV? || v.AttrList? }

  /** fmt.Sprint of a single operand. */
  function Sprint(v: Value): Bytes
    decreases v, 1
  {
    match v
    case Str(s) => s
    case Text(s) => s
    case Bool(b) => if b then "true" else "false"
    case Int(i) => Decimal(i)
    case Uint(u) => Decimal(u)
    case Nil => "<nil>"
    case ByteSlice(bs) => "[" + Join(seq(|bs|, k requires 0 <= k < |bs| => Decimal(bs[k] as int)), " ") + "]"
    case Foreign(printed, _) => printed
    case AttrV(a) => AttrText(a)
    case AttrList(attrs, _) => "[" + AttrsText(attrs) + "]"
  }

  /** slog.Attr.String(): key=value, a group's value printed as [a=1 b=2]. */
  function AttrText(a: Attr): Bytes
    decreases a, 0
  {
    a.key + "=" + match a.val
      case Leaf(v) => Sprint(v)
      case Group(attrs) => "[" + AttrsText(attrs) + "]"
  }

  function AttrsText(attrs: seq<Attr>): Bytes
    decreases attrs
  {
    if attrs == [] then []
    else if |attrs| == 1 then AttrText(attrs[0])
    else AttrText(attrs[0]) + " " + AttrsText(attrs[1..])
  }

  /** appendGroup: a group name is added unless it is empty. */
  function AppendGroup(groups: seq<Bytes>, name: Bytes): (r: seq<Bytes>)
    ensures |groups| <= |r| <= |groups| + 1 && r[..|groups|] == groups
  {
    if name == [] then groups else groups + [name]
  }

  /** joinAttrKey: the group names and the key joined with '.', the key
      left out when it is empty. */
  function JoinAttrKey(groups: seq<Bytes>, key: Bytes): Bytes {
    if groups == [] then key
    else Join(groups + (if key != [] then [key] else []), ".")
  }

  /** collectAttr and appendAttrKeyvals: a leaf gives one field keyed by
      its group path; a group's members are walked with the group's name
      appended to the path. */
  function AttrFields(a: Attr, groups: seq<Bytes>): seq<Field>
    decreases a, 1
  {
    match a.val
    case Leaf(v) => [Field(JoinAttrKey(groups, a.key), v)]
    case Group(attrs) => AttrsFields(attrs, AppendGroup(groups, a.key))
  }

  function AttrsFields(attrs: seq<Attr>, groups: seq<Bytes>): seq<Field>
    decreases attrs, 0
  {
    if attrs == [] then [] else AttrFields(attrs[0], groups) + AttrsFields(attrs[1..], groups)
  }

  /** The fields the walk produces from the items keyvals when its counter
      stands at n. An attribute or a list of attributes gives its fields;
      any other item is a key, printed with fmt.Sprint, for the item after
      it, or, when it is last, a value keyed arg<n>. The counter counts
      key/value pairs and trailing values; with countLeaves (phuslu) it also
      counts every attribute leaf, so that it counts every field written. */
  function Fields(keyvals: seq<Value>, groups: seq<Bytes>, n: nat, countLeaves: bool): seq<Field>
    decreases |keyvals|
  {
    if keyvals == [] then []
    else
      var v := keyvals[0];
      if IsAttrItem(v) then
        var fs := ItemFields(v, groups);
        fs + Fields(keyvals[1..], groups, if countLeaves then n + |fs| else n, countLeaves)
      else if |keyvals| > 1 then
        [Field(JoinAttrKey(groups, Sprint(v)), keyvals[1])] + Fields(keyvals[2..], groups, n + 1, countLeaves)
      else
        [Field(JoinAttrKey(groups, ArgKey(n)), v)]
  }

  /** The fields of an attribute or a list of attributes. */
  function ItemFields(v: Value, groups: seq<Bytes>): seq<Field>
    requires IsAttrItem(v)
  {
    if v.AttrV? then AttrFields(v.attr, groups) else AttrsFields(v.attrs, groups)
  }

  /** fmt.Sprintf("arg%d", n). */
  function ArgKey(n: nat): Bytes { "arg" + NatDigits(n) }

  /** The flat key, value, key, value, ... list of normalizeKeyvals. */
  function Flatten(fs: seq<Field>): (r: seq<Value>)
    ensures |r| == 2 * |fs|
  {
    if fs == [] then [] else [Str(fs[0].key), fs[0].value] + Flatten(fs[1..])
  }

  // ---- Properties ----

  lemma AppendGroupEmpty(groups: seq<Bytes>)
    ensures AppendGroup(groups, []) == groups
  {
  }

  lemma {:induction false} JoinSnoc(parts: seq<Bytes>, x: Bytes, sep: Bytes)
    requires parts != []
    ensures Join(parts + [x], sep) == Join(parts, sep) + sep + x
    decreases |parts|
  {
    if |parts| == 1 {
      assert parts + [x] == [parts[0], x];
      assert [parts[0], x][1..] == [x];
    } else {
      assert (parts + [x])[1..] == parts[1..] + [x];
      JoinSnoc(parts[1..], x, sep);
    }
  }

  /** Without groups a key is used as it is; inside groups it is the
      dotted group path, then a dot and the key. */
  lemma JoinAttrKeyShape(groups: seq<Bytes>, key: Bytes)
    ensures groups == [] ==> JoinAttrKey(groups, key) == key
    ensures groups != [] && key != [] ==> JoinAttrKey(groups, key) == Join(groups, ".") + "." + key
    ensures groups != [] && key == [] ==> JoinAttrKey(groups, key) == Join(groups, ".")
  {
    if groups != [] && key != [] {
      JoinSnoc(groups, key, ".");
    } else if groups != [] {
      assert groups + [] == groups;
    }
  }

  /** Opening a named group and then keying inside it gives the same key
      as keying with the dotted name: nested groups compose. */
  lemma JoinAttrKeyNested(groups: seq<Bytes>, name: Bytes, key: Bytes)
    requires name != [] && key != []
    ensures JoinAttrKey(AppendGroup(groups, name), key) == JoinAttrKey(groups, name + "." + key)
  {
    JoinAttrKeyShape(groups + [name], key);
    JoinAttrKeyShape(groups, name + "." + key);
    if groups != [] {
      JoinSnoc(groups, name, ".");
    }
  }

  /** Inside a group path every field key starts with the dotted path. */
  lemma {:induction false} AttrFieldsKeyedByGroup(a: Attr, groups: seq<Bytes>)
    requires groups != []
    ensures forall f :: f in AttrFields(a, groups) ==> IsPrefix(Join(groups, "."), f.key)
    decreases a, 1
  {
    match a.val
    case Leaf(v) =>
      JoinAttrKeyShape(groups, a.key);
    case Group(attrs) =>
      var inner := AppendGroup(groups, a.key);
      AttrsFieldsKeyedByGroup(attrs, inner);
      if a.key != [] {
        JoinSnoc(groups, a.key, ".");
        forall f | f in AttrsFields(attrs, inner)
          ensures IsPrefix(Join(groups, "."), f.key)
        {
          assert IsPrefix(Join(inner, "."), f.key);
          assert Join(inner, ".") == Join(groups, ".") + "." + a.key;
          assert IsPrefix(Join(groups, "."), Join(inner, "."));
          PrefixOfPrefix(Join(groups, "."), Join(inner, "."), f.key);
        }
      }
  }

  lemma {:induction false} AttrsFieldsKeyedByGroup(attrs: seq<Attr>, groups: seq<Bytes>)
    requires groups != []
    ensures forall f :: f in AttrsFields(attrs, groups) ==> IsPrefix(Join(groups, "."), f.key)
    decreases attrs, 0
  {
    if attrs != [] {
      AttrFieldsKeyedByGroup(attrs[0], groups);
      AttrsFieldsKeyedByGroup(attrs[1..], groups);
    }
  }

  /** Inside a group path every field the walk writes is keyed under the
      dotted path: pairs and trailing values as attribute leaves are. */
  lemma {:induction false} FieldsKeyedByGroup(keyvals: seq<Value>, groups: seq<Bytes>, n: nat, c: bool)
    requires groups != []
    ensures forall f :: f in Fields(keyvals, groups, n, c) ==> IsPrefix(Join(groups, "."), f.key)
    decreases |keyvals|
  {
    if keyvals != [] {
      var v := keyvals[0];
      if IsAttrItem(v) {
        var m := if c then n + |ItemFields(v, groups)| else n;
        FieldsKeyedByGroup(keyvals[1..], groups, m, c);
        KeyedAfterItem(keyvals, groups, n, c);
      } else if |keyvals| > 1 {
        FieldsKeyedByGroup(keyvals[2..], groups, n + 1, c);
        KeyedAfterPair(keyvals, groups, n, c);
      } else {
        JoinAttrKeyShape(groups, ArgKey(n));
        assert Fields(keyvals, groups, n, c) == [Field(JoinAttrKey(groups, ArgKey(n)), v)];
      }
    }
  }

  lemma KeyedAfterItem(keyvals: seq<Value>, groups: seq<Bytes>, n: nat, c: bool)
    requires groups != [] && keyvals != [] && IsAttrItem(keyvals[0])
    requires var m := if c then n + |ItemFields(keyvals[0], groups)| else n;
      forall f :: f in Fields(keyvals[1..], groups, m, c) ==> IsPrefix(Join(groups, "."), f.key)
    ensures forall f :: f in Fields(keyvals, groups, n, c) ==> IsPrefix(Join(groups, "."), f.key)
  {
    var v := keyvals[0];
    var fs := ItemFields(v, groups);
    if v.AttrV? {
      AttrFieldsKeyedByGroup(v.attr, groups);
    } else {
      AttrsFieldsKeyedByGroup(v.attrs, groups);
    }
    KeyedAppend(Join(groups, "."), fs, Fields(keyvals[1..], groups, if c then n + |fs| else n, c));
  }

  lemma KeyedAfterPair(keyvals: seq<Value>, groups: seq<Bytes>, n: nat, c: bool)
    requires groups != [] && |keyvals| > 1 && !IsAttrItem(keyvals[0])
    requires forall f :: f in Fields(keyvals[2..], groups, n + 1, c) ==> IsPrefix(Join(groups, "."), f.key)
    ensures forall f :: f in Fields(keyvals, groups, n, c) ==> IsPrefix(Join(groups, "."), f.key)
  {
    JoinAttrKeyShape(groups, Sprint(keyvals[0]));
    FieldsPairStep(keyvals, groups, n, c);
    KeyedAppend(Join(groups, "."), [Field(JoinAttrKey(groups, Sprint(keyvals[0])), keyvals[1])], Fields(keyvals[2..], groups, n + 1, c));
  }

  lemma KeyedAppend(p: Bytes, xs: seq<Field>, ys: seq<Field>)
    requires forall f :: f in xs ==> IsPrefix(p, f.key)
    requires forall f :: f in ys ==> IsPrefix(p, f.key)
    ensures forall f :: f in xs + ys ==> IsPrefix(p, f.key)
  {
  }

  lemma PrefixOfPrefix(a: Bytes, b: Bytes, c: Bytes)
    requires IsPrefix(a, b) && IsPrefix(b, c)
    ensures IsPrefix(a, c)
  {
    assert c[..|a|] == c[..|b|][..|a|];
  }

  /** One step of the walk at a key that has a value after it. */
  lemma FieldsPairStep(keyvals: seq<Value>, groups: seq<Bytes>, n: nat, c: bool)
    requires |keyvals| > 1 && !IsAttrItem(keyvals[0])
    ensures Fields(keyvals, groups, n, c)
      == [Field(JoinAttrKey(groups, Sprint(keyvals[0])), keyvals[1])] + Fields(keyvals[2..], groups, n + 1, c)
  {
  }

  /** Pairs only: p pairs and r odd items out (none or one) give p + r
      fields. */
  lemma {:induction false} FieldsOfPairsCount(keyvals: seq<Value>, groups: seq<Bytes>, n: nat, c: bool, p: nat, r: nat)
    requires r <= 1 && |keyvals| == 2 * p + r
    requires forall j :: 0 <= j < |keyvals| ==> !IsAttrItem(keyvals[j])
    ensures |Fields(keyvals, groups, n, c)| == p + r
    decreases p
  {
    if p > 0 {
      FieldsOfPairsCount(keyvals[2..], groups, n + 1, c, p - 1, r);
    }
  }

  /** Pairs only: the k-th field is the k-th key/value pair, keyed by the
      printed key under the group path. */
  lemma {:induction false} FieldsOfPairsAt(keyvals: seq<Value>, groups: seq<Bytes>, n: nat, c: bool, k: nat)
    requires 2 * k + 1 < |keyvals|
    requires forall j :: 0 <= j < |keyvals| ==> !IsAttrItem(keyvals[j])
    ensures var fs := Fields(keyvals, groups, n, c);
      k < |fs| && fs[k] == Field(JoinAttrKey(groups, Sprint(keyvals[2 * k])), keyvals[2 * k + 1])
    decreases k
  {
    if k > 0 {
      FieldsOfPairsAt(keyvals[2..], groups, n + 1, c, k - 1);
      assert keyvals[2..][2 * (k - 1)] == keyvals[2 * k];
      assert keyvals[2..][2 * (k - 1) + 1] == keyvals[2 * k + 1];
    }
  }

  /** Pairs only: an odd item out after p pairs is keyed arg<n + p>, the
      number of pairs before it counted from n. */
  lemma {:induction false} FieldsOfPairsTrailing(keyvals: seq<Value>, groups: seq<Bytes>, n: nat, c: bool, p: nat)
    requires |keyvals| == 2 * p + 1
    requires forall j :: 0 <= j < |keyvals| ==> !IsAttrItem(keyvals[j])
    ensures var fs := Fields(keyvals, groups, n, c);
      fs != [] && fs[|fs| - 1] == Field(JoinAttrKey(groups, ArgKey(n + p)), keyvals[|keyvals| - 1])
    decreases p
  {
    if p > 0 {
      var tail := keyvals[2..];
      FieldsOfPairsTrailing(tail, groups, n + 1, c, p - 1);
      var rest := Fields(tail, groups, n + 1, c);
      var head := Field(JoinAttrKey(groups, Sprint(keyvals[0])), keyvals[1]);
      FieldsPairStep(keyvals, groups, n, c);
      assert ([head] + rest)[|rest|] == rest[|rest| - 1];
      assert tail[|tail| - 1] == keyvals[|keyvals| - 1];
    }
  }

  /** The walk over keyvals ends on a value with no key after it. */
  predicate EndsTrailing(keyvals: seq<Value>)
    decreases |keyvals|
  {
    keyvals != []
    && if IsAttrItem(keyvals[0]) then EndsTrailing(keyvals[1..])
       else |keyvals| == 1 || EndsTrailing(keyvals[2..])
  }

  /** The last field is a trailing value keyed by the number of fields
      written before it, counted from n. */
  predicate LastKeyedByCount(keyvals: seq<Value>, groups: seq<Bytes>, n: nat)
  {
    var fs := Fields(keyvals, groups, n, true);
    keyvals != [] && fs != []
    && fs[|fs| - 1] == Field(JoinAttrKey(groups, ArgKey(n + |fs| - 1)), keyvals[|keyvals| - 1])
  }

  /** With countLeaves the counter counts every field written, so a
      trailing value is keyed arg<number of fields written before it>. */
  lemma {:induction false} TrailingKeyCountsFields(keyvals: seq<Value>, groups: seq<Bytes>, n: nat)
    requires EndsTrailing(keyvals)
    ensures LastKeyedByCount(keyvals, groups, n)
    decreases |keyvals|
  {
    var v := keyvals[0];
    if IsAttrItem(v) {
      var head := ItemFields(v, groups);
      TrailingKeyCountsFields(keyvals[1..], groups, n + |head|);
      LastKeyedAfterItem(keyvals, groups, n);
    } else if |keyvals| > 1 {
      TrailingKeyCountsFields(keyvals[2..], groups, n + 1);
      LastKeyedAfterPair(keyvals, groups, n);
    } else {
      LastKeyedAtEnd(keyvals, groups, n);
    }
  }

  lemma LastKeyedAtEnd(keyvals: seq<Value>, groups: seq<Bytes>, n: nat)
    requires |keyvals| == 1 && !IsAttrItem(keyvals[0])
    ensures LastKeyedByCount(keyvals, groups, n)
  {
    assert Fields(keyvals, groups, n, true) == [Field(JoinAttrKey(groups, ArgKey(n)), keyvals[0])];
  }

  lemma LastKeyedAfterItem(keyvals: seq<Value>, groups: seq<Bytes>, n: nat)
    requires keyvals != [] && IsAttrItem(keyvals[0])
    requires LastKeyedByCount(keyvals[1..], groups, n + |ItemFields(keyvals[0], groups)|)
    ensures LastKeyedByCount(keyvals, groups, n)
  {
    var head := ItemFields(keyvals[0], groups);
    var tail := keyvals[1..];
    var rest := Fields(tail, groups, n + |head|, true);
    assert Fields(keyvals, groups, n, true) == head + rest;
    assert (head + rest)[|head + rest| - 1] == rest[|rest| - 1];
    assert tail[|tail| - 1] == keyvals[|keyvals| - 1];
  }

  lemma LastKeyedAfterPair(keyvals: seq<Value>, groups: seq<Bytes>, n: nat)
    requires |keyvals| > 1 && !IsAttrItem(keyvals[0])
    requires LastKeyedByCount(keyvals[2..], groups, n + 1)
    ensures LastKeyedByCount(keyvals, groups, n)
  {
    var tail := keyvals[2..];
    var rest := Fields(tail, groups, n + 1, true);
    var head := Field(JoinAttrKey(groups, Sprint(keyvals[0])), keyvals[1]);
    FieldsPairStep(keyvals, groups, n, true);
    LastOfAppend([head], rest);
    assert tail[|tail| - 1] == keyvals[|keyvals| - 1];
  }

  lemma LastOfAppend<T>(h: seq<T>, rest: seq<T>)
    requires rest != []
    ensures (h + rest)[|h + rest| - 1] == rest[|rest| - 1]
  {
  }

  /** Walking a flat list again, outside any group, gives back the same
      fields: the normal form is a fixed point of the walk. */
  lemma {:induction false} FieldsOfFlatten(fs: seq<Field>, n: nat, c: bool)
    ensures Fields(Flatten(fs), [], n, c) == fs
    decreases |fs|
  {
    if fs != [] {
      var flat := Flatten(fs);
      assert flat[0] == Str(fs[0].key) && flat[1] == fs[0].value;
      assert flat[2..] == Flatten(fs[1..]);
      FieldsOfFlatten(fs[1..], n + 1, c);
      assert fs == [fs[0]] + fs[1..];
    }
  }

  /** Flattening distributes over concatenation. */
  lemma {:induction false} FlattenAppend(a: seq<Field>, b: seq<Field>)
    ensures Flatten(a + b) == Flatten(a) + Flatten(b)
    decreases |a|
  {
    if a == [] {
      assert a + b == b;
    } else {
      assert (a + b)[0] == a[0];
      assert (a + b)[1..] == a[1..] + b;
      FlattenAppend(a[1..], b);
    }
  }

  /** The k-th field sits at positions 2k (its key, as a string) and 2k+1. */
  lemma {:induction false} FlattenAt(fs: seq<Field>, k: nat)
    requires k < |fs|
    ensures Flatten(fs)[2 * k] == Str(fs[k].key) && Flatten(fs)[2 * k + 1] == fs[k].value
    decreases k
  {
    if k > 0 {
      assert Flatten(fs)[2..] == Flatten(fs[1..]);
      FlattenAt(fs[1..], k - 1);
    }
  }
}
