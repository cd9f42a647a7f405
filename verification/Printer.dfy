/** The canonical printer as it runs: text appended to one buffer. */
module Printer {
  import opened Json
  import opened Canonical

  class Buffer {
    var text: string

    constructor ()
      ensures text == ""
    {
      text := "";
    }

    method Push(s: string)
      modifies this
      ensures text == old(text) + s
    {
      text := text + s;
    }

    method PushString(s: string)
      modifies this
      ensures text == old(text) + PrintString(s)
    {
      hide Escape, Escapes;
      text := text + "\"";
      ghost var start := text;
      var i := 0;
      EscapesNext(s, 0);
      while i < |s|
        invariant 0 <= i <= |s|
        invariant text + Escapes(s[i..]) == start + Escapes(s)
      {
        EscapesNext(s, i);
        Regroup(text, "", Escape(s[i]), Escapes(s[i + 1..]));
        text := text + Escape(s[i]);
        i := i + 1;
      }
      EscapesNext(s, i);
      text := text + "\"";
      Regroup(old(text), "\"", Escapes(s), "\"");
    }

    method PushValue(v: Json)
      modifies this
      ensures text == old(text) + Print(v)
      decreases Size(v), 0
    {
      match v
      case Null => Push("null");
      case Bool(b) => Push(if b then "true" else "false");
      case Num(number) => Push(number);
      case Str(s) => PushString(s);
      case Arr(items) => PushArray(items);
      case Obj(fields) => PushObject(fields);
    }

    method PushArray(items: seq<Json>)
      modifies this
      ensures text == old(text) + Print(Arr(items))
      decreases SizeItems(items), 1
    {
      hide Print, PrintItems, Size, SizeItems, ItemsFrom;
      Push("[");
      ghost var start := text;
      var i := 0;
      ItemEnds(items);
      while i < |items|
        invariant 0 <= i <= |items|
        invariant text + ItemsFrom(items, i) == start + PrintItems(items)
      {
        ItemNext(items, i);
        SizeOfItem(items, i);
        var comma := if i > 0 then "," else "";
        Regroup(text, comma, Print(items[i]), ItemsFrom(items, i + 1));
        Push(comma);
        PushValue(items[i]);
        i := i + 1;
      }
      Push("]");
      PrintedShapes(items, []);
      Regroup(old(text), "[", PrintItems(items), "]");
    }

    method PushObject(fields: seq<Field>)
      modifies this
      ensures text == old(text) + Print(Obj(fields))
      decreases SizeFields(fields), 1
    {
      hide Print, PrintFields, PrintString, Size, SizeFields, FieldsFrom;
      Push("{");
      ghost var start := text;
      var i := 0;
      FieldEnds(fields);
      while i < |fields|
        invariant 0 <= i <= |fields|
        invariant text + FieldsFrom(fields, i) == start + PrintFields(fields)
      {
        FieldNext(fields, i);
        SizeOfField(fields, i);
        var comma := if i > 0 then "," else "";
        Regroup(text, comma, PrintField(fields[i]), FieldsFrom(fields, i + 1));
        Push(comma);
        ghost var was := text;
        PushString(fields[i].key);
        Push(":");
        PushValue(fields[i].value);
        Regroup(was, PrintString(fields[i].key), ":", Print(fields[i].value));
        i := i + 1;
      }
      Push("}");
      PrintedShapes([], fields);
      Regroup(old(text), "{", PrintFields(fields), "}");
    }
  }

  lemma Regroup(a: string, b: string, c: string, d: string)
    ensures a + (b + c + d) == a + b + c + d
    ensures b == "" ==> a + (c + d) == a + c + d
  {
    if b == "" { assert a + (c + d) == a + c + d; }
  }

  lemma EscapesNext(s: string, i: nat)
    requires i <= |s|
    ensures s[0..] == s
    ensures i < |s| ==> Escapes(s[i..]) == Escape(s[i]) + Escapes(s[i + 1..])
    ensures i == |s| ==> s[i..] == "" && Escapes(s[i..]) == ""
  {
    hide Escape;
    if i < |s| { assert s[i..][0] == s[i] && s[i..][1..] == s[i + 1..]; }
  }

  /** What is still to be printed before element i, its comma included. */
  ghost function ItemsFrom(items: seq<Json>, i: nat): string
    requires i <= |items|
  {
    (if 0 < i < |items| then "," else "") + PrintItems(items[i..])
  }

  lemma ItemEnds(items: seq<Json>)
    ensures ItemsFrom(items, 0) == PrintItems(items) && ItemsFrom(items, |items|) == ""
  {
    assert items[0..] == items;
  }

  lemma ItemNext(items: seq<Json>, i: nat)
    requires i < |items|
    ensures ItemsFrom(items, i) == (if i > 0 then "," else "") + Print(items[i]) + ItemsFrom(items, i + 1)
  {
    hide Print;
    assert items[i..][0] == items[i] && items[i..][1..] == items[i + 1..];
    var comma := if i > 0 then "," else "";
    assert PrintItems(items[i..]) == Print(items[i]) + ItemsFrom(items, i + 1);
    assert comma + (Print(items[i]) + ItemsFrom(items, i + 1)) == comma + Print(items[i]) + ItemsFrom(items, i + 1);
  }

  ghost function FieldsFrom(fields: seq<Field>, i: nat): string
    requires i <= |fields|
  {
    (if 0 < i < |fields| then "," else "") + PrintFields(fields[i..])
  }

  lemma FieldEnds(fields: seq<Field>)
    ensures FieldsFrom(fields, 0) == PrintFields(fields) && FieldsFrom(fields, |fields|) == ""
  {
    assert fields[0..] == fields;
  }

  lemma FieldNext(fields: seq<Field>, i: nat)
    requires i < |fields|
    ensures FieldsFrom(fields, i) == (if i > 0 then "," else "") + PrintField(fields[i]) + FieldsFrom(fields, i + 1)
  {
    hide PrintField;
    assert fields[i..][0] == fields[i] && fields[i..][1..] == fields[i + 1..];
    var comma := if i > 0 then "," else "";
    assert PrintFields(fields[i..]) == PrintField(fields[i]) + FieldsFrom(fields, i + 1);
    assert comma + (PrintField(fields[i]) + FieldsFrom(fields, i + 1)) == comma + PrintField(fields[i]) + FieldsFrom(fields, i + 1);
  }

}
