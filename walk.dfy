/** The loops that walk keyvals and slog attributes. The adapters carry
    their own copies of them: collectKeyvals/collectAttr in psl and
    keyvalsToFields/appendAttrField in zap build fields; normalizeKeyvals,
    attrsToKeyvals and appendAttrKeyvals in onelogger, phuslu and charm
    build a flat key, value, ... list; appendEntryFields in phuslu writes
    fields while counting them. Each loop is proved against the walk
    Keyvals.Fields. */
module Walk {
  import opened GoBytes
  import opened Keyvals

  lemma SeqAssoc<T>(x: seq<T>, y: seq<T>, z: seq<T>)
    ensures x + (y + z) == x + y + z
  {
  }

  /** One step of the walk from index i: at an attribute item, at a key
      with a value after it, and at a last item. */
  lemma FieldsFromItem(keyvals: seq<Value>, groups: seq<Bytes>, i: nat, n: nat, c: bool)
    requires i < |keyvals| && IsAttrItem(keyvals[i])
    ensures var fs := ItemFields(keyvals[i], groups);
      Fields(keyvals[i..], groups, n, c) == fs + Fields(keyvals[i + 1..], groups, if c then n + |fs| else n, c)
  {
    assert keyvals[i..][0] == keyvals[i];
    assert keyvals[i..][1..] == keyvals[i + 1..];
  }

  lemma FieldsFromPair(keyvals: seq<Value>, groups: seq<Bytes>, i: nat, n: nat, c: bool)
    requires i + 1 < |keyvals| && !IsAttrItem(keyvals[i])
    ensures Fields(keyvals[i..], groups, n, c)
      == [Field(JoinAttrKey(groups, Sprint(keyvals[i])), keyvals[i + 1])] + Fields(keyvals[i + 2..], groups, n + 1, c)
  {
    var s := keyvals[i..];
    assert s[0] == keyvals[i] && s[1] == keyvals[i + 1];
    assert s[2..] == keyvals[i + 2..];
  }

  lemma FieldsFromLast(keyvals: seq<Value>, groups: seq<Bytes>, i: nat, n: nat, c: bool)
    requires i + 1 == |keyvals| && !IsAttrItem(keyvals[i])
    ensures Fields(keyvals[i..], groups, n, c) == [Field(JoinAttrKey(groups, ArgKey(n)), keyvals[i])]
  {
    assert keyvals[i..] == [keyvals[i]];
  }

  /** One step of the walk over attributes from index j. */
  lemma AttrsFieldsFrom(attrs: seq<Attr>, j: nat, groups: seq<Bytes>)
    requires j < |attrs|
    ensures AttrsFields(attrs[j..], groups) == AttrFields(attrs[j], groups) + AttrsFields(attrs[j + 1..], groups)
  {
    assert attrs[j..][0] == attrs[j];
    assert attrs[j..][1..] == attrs[j + 1..];
  }

  /** The same step, flattened. */
  lemma FlatAttrsFrom(attrs: seq<Attr>, j: nat, groups: seq<Bytes>)
    requires j < |attrs|
    ensures Flatten(AttrsFields(attrs[j..], groups))
      == Flatten(AttrFields(attrs[j], groups)) + Flatten(AttrsFields(attrs[j + 1..], groups))
  {
    AttrsFieldsFrom(attrs, j, groups);
    FlattenAppend(AttrFields(attrs[j], groups), AttrsFields(attrs[j + 1..], groups));
  }

  /** A loop's invariant carried over one step of the walk: the fields
      still to come from index i are the step's fields, then the rest. */
  lemma ItemStep(keyvals: seq<Value>, groups: seq<Bytes>, i: nat, n: nat, c: bool, out: seq<Field>, total: seq<Field>)
    requires i < |keyvals| && IsAttrItem(keyvals[i])
    requires out + Fields(keyvals[i..], groups, n, c) == total
    ensures var fs := ItemFields(keyvals[i], groups);
      out + fs + Fields(keyvals[i + 1..], groups, if c then n + |fs| else n, c) == total
  {
    FieldsFromItem(keyvals, groups, i, n, c);
  }

  lemma PairStep(keyvals: seq<Value>, groups: seq<Bytes>, i: nat, n: nat, c: bool, out: seq<Field>, total: seq<Field>)
    requires i + 1 < |keyvals| && !IsAttrItem(keyvals[i])
    requires out + Fields(keyvals[i..], groups, n, c) == total
    ensures out + [Field(JoinAttrKey(groups, Sprint(keyvals[i])), keyvals[i + 1])] + Fields(keyvals[i + 2..], groups, n + 1, c) == total
  {
    FieldsFromPair(keyvals, groups, i, n, c);
  }

  lemma LastStep(keyvals: seq<Value>, groups: seq<Bytes>, i: nat, n: nat, c: bool, out: seq<Field>, total: seq<Field>)
    requires i + 1 == |keyvals| && !IsAttrItem(keyvals[i])
    requires out + Fields(keyvals[i..], groups, n, c) == total
    ensures out + [Field(JoinAttrKey(groups, ArgKey(n)), keyvals[i])] == total
  {
    FieldsFromLast(keyvals, groups, i, n, c);
  }

  /** The same steps for the flat list. */
  lemma FlatItemStep(keyvals: seq<Value>, groups: seq<Bytes>, i: nat, n: nat, out: seq<Value>, total: seq<Value>)
    requires i < |keyvals| && IsAttrItem(keyvals[i])
    requires out + Flatten(Fields(keyvals[i..], groups, n, false)) == total
    ensures out + Flatten(ItemFields(keyvals[i], groups)) + Flatten(Fields(keyvals[i + 1..], groups, n, false)) == total
  {
    FieldsFromItem(keyvals, groups, i, n, false);
    FlattenAppend(ItemFields(keyvals[i], groups), Fields(keyvals[i + 1..], groups, n, false));
  }

  lemma FlatPairStep(keyvals: seq<Value>, groups: seq<Bytes>, i: nat, n: nat, out: seq<Value>, total: seq<Value>)
    requires i + 1 < |keyvals| && !IsAttrItem(keyvals[i])
    requires out + Flatten(Fields(keyvals[i..], groups, n, false)) == total
    ensures out + [Str(JoinAttrKey(groups, Sprint(keyvals[i]))), keyvals[i + 1]] + Flatten(Fields(keyvals[i + 2..], groups, n + 1, false)) == total
  {
    var head := [Field(JoinAttrKey(groups, Sprint(keyvals[i])), keyvals[i + 1])];
    FieldsFromPair(keyvals, groups, i, n, false);
    FlattenAppend(head, Fields(keyvals[i + 2..], groups, n + 1, false));
    assert Flatten(head) == [Str(JoinAttrKey(groups, Sprint(keyvals[i]))), keyvals[i + 1]];
  }

  lemma FlatLastStep(keyvals: seq<Value>, groups: seq<Bytes>, i: nat, n: nat, out: seq<Value>, total: seq<Value>)
    requires i + 1 == |keyvals| && !IsAttrItem(keyvals[i])
    requires out + Flatten(Fields(keyvals[i..], groups, n, false)) == total
    ensures out + [Str(JoinAttrKey(groups, ArgKey(n))), keyvals[i]] == total
  {
    FieldsFromLast(keyvals, groups, i, n, false);
    assert Flatten([Field(JoinAttrKey(groups, ArgKey(n)), keyvals[i])]) == [Str(JoinAttrKey(groups, ArgKey(n))), keyvals[i]];
  }

  // ---- Walks that build fields (psl, zap) ----

  /** collectAttr: a leaf is one field keyed by its group path; a group's
      members are walked with the group's name added to the path. */
  method CollectAttr(dst: seq<Field>, attr: Attr, groups: seq<Bytes>) returns (out: seq<Field>)
    ensures out == dst + AttrFields(attr, groups)
    decreases attr
  {
    match attr.val {
      case Leaf(v) =>
        var key := JoinAttrKey(groups, attr.key);
        out := dst + [Field(key, v)];
      case Group(attrs) =>
        var parent := groups;
        if attr.key != [] {
          parent := AppendGroup(parent, attr.key);
        }
        out := dst;
        assert attrs[0..] == attrs;
        for j := 0 to |attrs|
          invariant out + AttrsFields(attrs[j..], parent) == dst + AttrsFields(attrs, parent)
        {
          assert attrs[j] in attrs;
          AttrsFieldsFrom(attrs, j, parent);
          SeqAssoc(out, AttrFields(attrs[j], parent), AttrsFields(attrs[j + 1..], parent));
          out := CollectAttr(out, attrs[j], parent);
        }
    }
  }

  /** collectAttrs. */
  method CollectAttrs(dst: seq<Field>, attrs: seq<Attr>, groups: seq<Bytes>) returns (out: seq<Field>)
    ensures out == dst + AttrsFields(attrs, groups)
  {
    out := dst;
    assert attrs[0..] == attrs;
    for j := 0 to |attrs|
      invariant out + AttrsFields(attrs[j..], groups) == dst + AttrsFields(attrs, groups)
    {
      AttrsFieldsFrom(attrs, j, groups);
      SeqAssoc(out, AttrFields(attrs[j], groups), AttrsFields(attrs[j + 1..], groups));
      out := CollectAttr(out, attrs[j], groups);
    }
  }

  /** collectKeyvals: attributes give their fields, any other item is a
      key for the item after it, and a last item with no value after it is
      keyed arg<pairs so far>; keys sit under the group path. */
  method CollectKeyvals(dst: seq<Field>, keyvals: seq<Value>, groups: seq<Bytes>) returns (out: seq<Field>)
    ensures out == dst + Fields(keyvals, groups, 0, false)
  {
    ghost var total := dst + Fields(keyvals, groups, 0, false);
    out := dst;
    var pair: nat := 0;
    var i := 0;
    while i < |keyvals|
      invariant 0 <= i <= |keyvals|
      invariant out + Fields(keyvals[i..], groups, pair, false) == total
      decreases |keyvals| - i
    {
      if keyvals[i].AttrV? {
        ItemStep(keyvals, groups, i, pair, false, out, total);
        out := CollectAttr(out, keyvals[i].attr, groups);
        i := i + 1;
      } else if keyvals[i].AttrList? {
        ItemStep(keyvals, groups, i, pair, false, out, total);
        out := CollectAttrs(out, keyvals[i].attrs, groups);
        i := i + 1;
      } else {
        if i + 1 < |keyvals| {
          var key := Sprint(keyvals[i]);
          if |groups| > 0 {
            key := JoinAttrKey(groups, key);
          }
          PairStep(keyvals, groups, i, pair, false, out, total);
          out := out + [Field(key, keyvals[i + 1])];
          pair := pair + 1;
          i := i + 2;
        } else {
          var key := ArgKey(pair);
          if |groups| > 0 {
            key := JoinAttrKey(groups, key);
          }
          LastStep(keyvals, groups, i, pair, false, out, total);
          out := out + [Field(key, keyvals[i])];
          pair := pair + 1;
          i := i + 1;
        }
      }
    }
  }

  // ---- Walks that build a flat key, value, ... list (onelogger, phuslu, charm) ----

  /** appendAttrKeyvals: a leaf appends its key and value; a group's
      members are appended under the group's name. */
  method AppendAttrKeyvals(dst: seq<Value>, attr: Attr, groups: seq<Bytes>) returns (out: seq<Value>)
    ensures out == dst + Flatten(AttrFields(attr, groups))
    decreases attr
  {
    match attr.val {
      case Leaf(v) =>
        var key := JoinAttrKey(groups, attr.key);
        assert Flatten([Field(key, v)]) == [Str(key), v];
        out := dst + [Str(key), v];
      case Group(attrs) =>
        var sub := groups;
        if attr.key != [] {
          sub := AppendGroup(groups, attr.key);
        }
        out := dst;
        assert attrs[0..] == attrs;
        for j := 0 to |attrs|
          invariant out + Flatten(AttrsFields(attrs[j..], sub)) == dst + Flatten(AttrsFields(attrs, sub))
        {
          assert attrs[j] in attrs;
          FlatAttrsFrom(attrs, j, sub);
          SeqAssoc(out, Flatten(AttrFields(attrs[j], sub)), Flatten(AttrsFields(attrs[j + 1..], sub)));
          out := AppendAttrKeyvals(out, attrs[j], sub);
        }
    }
  }

  /** attrsToKeyvals (and recordToKeyvals, the same walk over a record's
      attributes). */
  method AttrsToKeyvals(attrs: seq<Attr>, groups: seq<Bytes>) returns (keyvals: seq<Value>)
    ensures keyvals == Flatten(AttrsFields(attrs, groups))
  {
    keyvals := [];
    assert attrs[0..] == attrs;
    for j := 0 to |attrs|
      invariant keyvals + Flatten(AttrsFields(attrs[j..], groups)) == Flatten(AttrsFields(attrs, groups))
    {
      FlatAttrsFrom(attrs, j, groups);
      SeqAssoc(keyvals, Flatten(AttrFields(attrs[j], groups)), Flatten(AttrsFields(attrs[j + 1..], groups)));
      keyvals := AppendAttrKeyvals(keyvals, attrs[j], groups);
    }
  }

  /** A list item's attributes, appended one after another. */
  method AppendAttrsKeyvals(dst: seq<Value>, attrs: seq<Attr>, groups: seq<Bytes>) returns (out: seq<Value>)
    ensures out == dst + Flatten(AttrsFields(attrs, groups))
  {
    var flat := AttrsToKeyvals(attrs, groups);
    out := dst + flat;
  }

  /** normalizeKeyvals: the walk's fields as an even-length list of string
      keys each followed by its value. */
  method NormalizeKeyvals(keyvals: seq<Value>, groups: seq<Bytes>) returns (normalized: seq<Value>)
    ensures normalized == Flatten(Fields(keyvals, groups, 0, false))
  {
    ghost var total := Flatten(Fields(keyvals, groups, 0, false));
    normalized := [];
    var pairIndex: nat := 0;
    var i := 0;
    while i < |keyvals|
      invariant 0 <= i <= |keyvals|
      invariant normalized + Flatten(Fields(keyvals[i..], groups, pairIndex, false)) == total
      decreases |keyvals| - i
    {
      if keyvals[i].AttrV? {
        FlatItemStep(keyvals, groups, i, pairIndex, normalized, total);
        normalized := AppendAttrKeyvals(normalized, keyvals[i].attr, groups);
        i := i + 1;
      } else if keyvals[i].AttrList? {
        FlatItemStep(keyvals, groups, i, pairIndex, normalized, total);
        normalized := AppendAttrsKeyvals(normalized, keyvals[i].attrs, groups);
        i := i + 1;
      } else {
        if i + 1 < |keyvals| {
          var key := Sprint(keyvals[i]);
          if |groups| > 0 {
            key := JoinAttrKey(groups, key);
          }
          FlatPairStep(keyvals, groups, i, pairIndex, normalized, total);
          normalized := normalized + [Str(key), keyvals[i + 1]];
          pairIndex := pairIndex + 1;
          i := i + 2;
        } else {
          var key := ArgKey(pairIndex);
          if |groups| > 0 {
            key := JoinAttrKey(groups, key);
          }
          FlatLastStep(keyvals, groups, i, pairIndex, normalized, total);
          normalized := normalized + [Str(key), keyvals[i]];
          pairIndex := pairIndex + 1;
          i := i + 1;
        }
      }
    }
  }

  // ---- The counting walk (phuslu's appendEntryFields) ----

  /** appendAttrFields: writes the attribute's fields and returns the
      counter advanced by one per field written. */
  method AppendAttrFields(dst: seq<Field>, attr: Attr, groups: seq<Bytes>, argIndex: nat)
    returns (out: seq<Field>, next: nat)
    ensures out == dst + AttrFields(attr, groups)
    ensures next == argIndex + |AttrFields(attr, groups)|
    decreases attr
  {
    match attr.val {
      case Leaf(v) =>
        var key := JoinAttrKey(groups, attr.key);
        out := dst + [Field(key, v)];
        next := argIndex + 1;
      case Group(attrs) =>
        var sub := groups;
        if attr.key != [] {
          sub := AppendGroup(groups, attr.key);
        }
        out := dst;
        next := argIndex;
        assert attrs[0..] == attrs;
        for j := 0 to |attrs|
          invariant out + AttrsFields(attrs[j..], sub) == dst + AttrsFields(attrs, sub)
          invariant next == argIndex + |out| - |dst|
        {
          assert attrs[j] in attrs;
          AttrsFieldsFrom(attrs, j, sub);
          SeqAssoc(out, AttrFields(attrs[j], sub), AttrsFields(attrs[j + 1..], sub));
          out, next := AppendAttrFields(out, attrs[j], sub, next);
        }
    }
  }

  /** The loop over a list item's attributes in appendEntryFields. */
  method AppendAttrsFields(dst: seq<Field>, attrs: seq<Attr>, groups: seq<Bytes>, argIndex: nat)
    returns (out: seq<Field>, next: nat)
    ensures out == dst + AttrsFields(attrs, groups)
    ensures next == argIndex + |AttrsFields(attrs, groups)|
  {
    out := dst;
    next := argIndex;
    assert attrs[0..] == attrs;
    for j := 0 to |attrs|
      invariant out + AttrsFields(attrs[j..], groups) == dst + AttrsFields(attrs, groups)
      invariant next == argIndex + |out| - |dst|
    {
      AttrsFieldsFrom(attrs, j, groups);
      SeqAssoc(out, AttrFields(attrs[j], groups), AttrsFields(attrs[j + 1..], groups));
      out, next := AppendAttrFields(out, attrs[j], groups, next);
    }
  }

  /** appendEntryFields: the walk with every field counted; it returns the
      counter advanced by the number of fields written. */
  method AppendEntryFields(dst: seq<Field>, keyvals: seq<Value>, groups: seq<Bytes>, argIndex: nat)
    returns (out: seq<Field>, next: nat)
    ensures out == dst + Fields(keyvals, groups, argIndex, true)
    ensures next == argIndex + |Fields(keyvals, groups, argIndex, true)|
  {
    ghost var total := dst + Fields(keyvals, groups, argIndex, true);
    out := dst;
    next := argIndex;
    var i := 0;
    while i < |keyvals|
      invariant 0 <= i <= |keyvals|
      invariant out + Fields(keyvals[i..], groups, next, true) == total
      invariant next == argIndex + |out| - |dst|
      decreases |keyvals| - i
    {
      if keyvals[i].AttrV? {
        ItemStep(keyvals, groups, i, next, true, out, total);
        out, next := AppendAttrFields(out, keyvals[i].attr, groups, next);
        i := i + 1;
      } else if keyvals[i].AttrList? {
        ItemStep(keyvals, groups, i, next, true, out, total);
        out, next := AppendAttrsFields(out, keyvals[i].attrs, groups, next);
        i := i + 1;
      } else {
        if i + 1 >= |keyvals| {
          var key := ArgKey(next);
          if |groups| > 0 {
            key := JoinAttrKey(groups, key);
          }
          LastStep(keyvals, groups, i, next, true, out, total);
          out := out + [Field(key, keyvals[i])];
          next := next + 1;
          i := i + 1;
        } else {
          var key := Sprint(keyvals[i]);
          if |groups| > 0 {
            key := JoinAttrKey(groups, key);
          }
          PairStep(keyvals, groups, i, next, true, out, total);
          out := out + [Field(key, keyvals[i + 1])];
          next := next + 1;
          i := i + 2;
        }
      }
    }
  }
}
