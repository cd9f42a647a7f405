/** The canonical JSON text that deploy fingerprints are made of, and readers that
    take it apart again. */
module Canonical {
  import opened Options
  import opened Json

  // --- printing ---

  function HexDigit(n: nat): (c: char)
    requires n < 16
    ensures Nibble(c) == Some(n)
  {
    if n < 10 then ('0' as int + n) as char else ('a' as int + n - 10) as char
  }

  function Hex4(n: nat): (s: string)
    requires n < 0x10000
  {
    [HexDigit(n / 0x1000), HexDigit(n / 0x100 % 0x10), HexDigit(n / 0x10 % 0x10), HexDigit(n % 0x10)]
  }

  function Escape(c: char): string {
    if c == '"' then "\\\""
    else if c == '\\' then "\\\\"
    else if c == '\n' then "\\n"
    else if c == '\r' then "\\r"
    else if c == '\t' then "\\t"
    else if c == '\U{8}' then "\\b"
    else if c == '\U{c}' then "\\f"
    else if ' ' <= c <= '~' then [c]
    else UnicodeEscape(c)
  }

  /** A character beyond the basic plane is two surrogates. */
  function UnicodeEscape(c: char): (s: string)
    ensures |s| > 2 && s[0] == '\\'
  {
    var cp := c as int;
    if cp < 0x10000 then "\\u" + Hex4(cp)
    else
      var v := cp - 0x10000;
      "\\u" + Hex4(0xd800 + v / 0x400) + "\\u" + Hex4(0xdc00 + v % 0x400)
  }

  function Escapes(s: string): string {
    if s == "" then "" else Escape(s[0]) + Escapes(s[1..])
  }

  function PrintString(s: string): string { "\"" + Escapes(s) + "\"" }

  function Print(v: Json): string
    decreases Size(v), 0
  {
    match v
    case Null => "null"
    case Bool(b) => if b then "true" else "false"
    case Num(text) => text
    case Str(s) => PrintString(s)
    case Arr(items) => "[" + PrintItems(items) + "]"
    case Obj(fields) => "{" + PrintFields(fields) + "}"
  }

  function PrintItems(items: seq<Json>): string
    decreases SizeItems(items), 1
  {
    if items == [] then ""
    else Print(items[0]) + (if |items| == 1 then "" else "," + PrintItems(items[1..]))
  }

  function PrintField(f: Field): string
    decreases Size(f.value), 1
  {
    PrintString(f.key) + ":" + Print(f.value)
  }

  function PrintFields(fields: seq<Field>): string
    decreases SizeFields(fields), 1
  {
    if fields == [] then ""
    else PrintField(fields[0]) + (if |fields| == 1 then "" else "," + PrintFields(fields[1..]))
  }

  // --- reading strings: section 7 of RFC 8259 ---

  datatype Read<T> = Read(value: T, rest: string)

  function Nibble(c: char): (n: Option<nat>)
    ensures n.Some? ==> n.value < 16
  {
    if '0' <= c <= '9' then Some(c as int - '0' as int)
    else if 'a' <= c <= 'f' then Some(c as int - 'a' as int + 10)
    else if 'A' <= c <= 'F' then Some(c as int - 'A' as int + 10)
    else None
  }

  function ReadHex4(t: string): (r: Option<Read<nat>>)
    ensures r.Some? ==> r.value.value < 0x10000 && |r.value.rest| == |t| - 4
  {
    if |t| < 4 then None
    else
      match (Nibble(t[0]), Nibble(t[1]), Nibble(t[2]), Nibble(t[3]))
      case (Some(a), Some(b), Some(c), Some(d)) => Some(Read(((a * 16 + b) * 16 + c) * 16 + d, t[4..]))
      case _ => None
  }

  /** The character after `\u`: a surrogate stands for one only as a high one
      followed at once by a low one. */
  function ReadUnicode(t: string): (r: Option<Read<char>>)
    ensures r.Some? ==> |r.value.rest| < |t|
  {
    match ReadHex4(t)
    case None => None
    case Some(hi) =>
      if hi.value < 0xd800 || 0xe000 <= hi.value then Some(Read(hi.value as char, hi.rest))
      else if hi.value < 0xdc00 && |hi.rest| > 1 && hi.rest[0] == '\\' && hi.rest[1] == 'u' then
        (match ReadHex4(hi.rest[2..])
         case None => None
         case Some(lo) =>
           if 0xdc00 <= lo.value < 0xe000 then
             Some(Read((0x10000 + (hi.value - 0xd800) * 0x400 + (lo.value - 0xdc00)) as char, lo.rest))
           else None)
      else None
  }

  function ReadEscape(t: string): (r: Option<Read<char>>)
    ensures r.Some? ==> |r.value.rest| < |t|
  {
    if t == "" then None
    else
      match t[0]
      case '"' => Some(Read('"', t[1..]))
      case '\\' => Some(Read('\\', t[1..]))
      case '/' => Some(Read('/', t[1..]))
      case 'b' => Some(Read('\U{8}', t[1..]))
      case 'f' => Some(Read('\U{c}', t[1..]))
      case 'n' => Some(Read('\n', t[1..]))
      case 'r' => Some(Read('\r', t[1..]))
      case 't' => Some(Read('\t', t[1..]))
      case 'u' => ReadUnicode(t[1..])
      case _ => None
  }

  function ReadChar(t: string): (r: Option<Read<char>>)
    requires t != ""
    ensures r.Some? ==> |r.value.rest| < |t|
  {
    if t[0] == '\\' then ReadEscape(t[1..])
    else if t[0] < ' ' then None
    else Some(Read(t[0], t[1..]))
  }

  /** The rest of a string whose opening quote has been read. */
  function ReadString(t: string): (r: Option<Read<string>>)
    ensures r.Some? ==> |r.value.rest| < |t|
    decreases |t|
  {
    if t == "" then None
    else if t[0] == '"' then Some(Read("", t[1..]))
    else
      match ReadChar(t)
      case None => None
      case Some(c) =>
        match ReadString(c.rest)
        case None => None
        case Some(s) => Some(Read([c.value] + s.value, s.rest))
  }

  // --- reading values (compact text: the printer writes no white space) ---

  predicate NumberChar(c: char) { '0' <= c <= '9' || c in "+-.eE" }

  function ReadNumber(t: string): (r: Read<string>)
    ensures |r.value| + |r.rest| == |t|
  {
    if t == "" || !NumberChar(t[0]) then Read("", t)
    else
      var r := ReadNumber(t[1..]);
      Read([t[0]] + r.value, r.rest)
  }

  predicate Starts(t: string, c: char) { t != "" && t[0] == c }

  function ReadWord(t: string, word: string, v: Json): (r: Option<Read<Json>>)
    requires word != ""
    ensures r.Some? ==> |r.value.rest| < |t|
  {
    if word <= t then Some(Read(v, t[|word|..])) else None
  }

  function ReadValue(t: string): (r: Option<Read<Json>>)
    ensures r.Some? ==> |r.value.rest| < |t|
    decreases |t|, 0
  {
    if t == "" then None
    else if t[0] == 'n' then ReadWord(t, "null", Null)
    else if t[0] == 't' then ReadWord(t, "true", Bool(true))
    else if t[0] == 'f' then ReadWord(t, "false", Bool(false))
    else if t[0] == '"' then
      (match ReadString(t[1..]) case Some(s) => Some(Read(Str(s.value), s.rest)) case None => None)
    else if t[0] == '[' then ReadArray(t[1..])
    else if t[0] == '{' then ReadObject(t[1..])
    else
      var n := ReadNumber(t);
      if n.value == "" then None else Some(Read(Num(n.value), n.rest))
  }

  /** An array or an object whose opening bracket has been read. */
  function ReadArray(t: string): (r: Option<Read<Json>>)
    ensures r.Some? ==> |r.value.rest| < |t|
    decreases |t|, 3
  {
    if Starts(t, ']') then Some(Read(Arr([]), t[1..]))
    else match ReadItems(t) case Some(a) => Some(Read(Arr(a.value), a.rest)) case None => None
  }

  function ReadObject(t: string): (r: Option<Read<Json>>)
    ensures r.Some? ==> |r.value.rest| < |t|
    decreases |t|, 3
  {
    if Starts(t, '}') then Some(Read(Obj([]), t[1..]))
    else match ReadFields(t) case Some(o) => Some(Read(Obj(o.value), o.rest)) case None => None
  }

  function ReadItems(t: string): (r: Option<Read<seq<Json>>>)
    ensures r.Some? ==> |r.value.rest| < |t|
    decreases |t|, 1
  {
    match ReadValue(t)
    case None => None
    case Some(v) =>
      if Starts(v.rest, ']') then Some(Read([v.value], v.rest[1..]))
      else if Starts(v.rest, ',') then
        (match ReadItems(v.rest[1..])
         case Some(a) => Some(Read([v.value] + a.value, a.rest))
         case None => None)
      else None
  }

  function ReadField(t: string): (r: Option<Read<Field>>)
    ensures r.Some? ==> |r.value.rest| < |t|
    decreases |t|, 1
  {
    if !Starts(t, '"') then None
    else
      match ReadString(t[1..])
      case None => None
      case Some(k) =>
        if !Starts(k.rest, ':') then None
        else
          match ReadValue(k.rest[1..])
          case None => None
          case Some(v) => Some(Read(Field(k.value, v.value), v.rest))
  }

  function ReadFields(t: string): (r: Option<Read<seq<Field>>>)
    ensures r.Some? ==> |r.value.rest| < |t|
    decreases |t|, 2
  {
    match ReadField(t)
    case None => None
    case Some(f) =>
      if Starts(f.rest, '}') then Some(Read([f.value], f.rest[1..]))
      else if Starts(f.rest, ',') then
        (match ReadFields(f.rest[1..])
         case Some(o) => Some(Read([f.value] + o.value, o.rest))
         case None => None)
      else None
  }

  // --- strings survive ---

  lemma Hex4Survives(n: nat, rest: string)
    requires n < 0x10000
    ensures ReadHex4(Hex4(n) + rest) == Some(Read(n, rest))
  {
    var a, b, c, d := n / 0x1000, n / 0x100 % 0x10, n / 0x10 % 0x10, n % 0x10;
    var t := Hex4(n) + rest;
    assert t[0] == HexDigit(a) && t[1] == HexDigit(b) && t[2] == HexDigit(c) && t[3] == HexDigit(d);
    assert t[4..] == rest;
    assert n / 0x10 == n / 0x100 * 0x10 + c && n / 0x100 == a * 0x10 + b;
  }

  lemma BasicSurvives(c: char, rest: string)
    requires c as int < 0x10000
    ensures ReadUnicode(Hex4(c as int) + rest) == Some(Read(c, rest))
  {
    hide Hex4, ReadHex4;
    Hex4Survives(c as int, rest);
  }

  lemma AstralSurvives(c: char, rest: string)
    requires c as int >= 0x10000
    ensures var v := c as int - 0x10000;
            ReadUnicode(Hex4(0xd800 + v / 0x400) + ("\\u" + (Hex4(0xdc00 + v % 0x400) + rest))) == Some(Read(c, rest))
  {
    hide Hex4, ReadHex4;
    var v := c as int - 0x10000;
    var hi, lo := 0xd800 + v / 0x400, 0xdc00 + v % 0x400;
    var low := Hex4(lo) + rest;
    var mid := "\\u" + low;
    Hex4Survives(hi, mid);
    assert mid[0] == '\\' && mid[1] == 'u' && mid[2..] == low;
    Hex4Survives(lo, rest);
    assert 0x10000 + (hi - 0xd800) * 0x400 + (lo - 0xdc00) == c as int;
  }

  /** Characters that stand for themselves, and those with an escape of two characters. */
  lemma ShortEscapes(c: char, rest: string)
    requires |Escape(c)| <= 2
    ensures |Escape(c)| == 1 ==> Escape(c) == [c] && ' ' <= c && c != '"' && c != '\\'
    ensures |Escape(c)| == 2 ==> Escape(c)[0] == '\\' && ReadEscape([Escape(c)[1]] + rest) == Some(Read(c, rest))
    ensures |Escape(c)| > 0
  {
    hide ReadUnicode;
    if |Escape(c)| == 2 {
      var t := [Escape(c)[1]] + rest;
      assert t[1..] == rest;
    }
  }

  lemma EscapeKinds(c: char)
    ensures |Escape(c)| <= 2 || Escape(c) == UnicodeEscape(c)
  {
    hide UnicodeEscape;
  }

  lemma LongEscapes(c: char, rest: string)
    ensures exists code :: UnicodeEscape(c) + rest == ['\\', 'u'] + code && ReadUnicode(code) == Some(Read(c, rest))
  {
    hide ReadUnicode, Hex4;
    var cp := c as int;
    if cp < 0x10000 {
      BasicSurvives(c, rest);
      assert UnicodeEscape(c) + rest == ['\\', 'u'] + (Hex4(cp) + rest);
    } else {
      var v := cp - 0x10000;
      AstralSurvives(c, rest);
      assert UnicodeEscape(c) + rest == ['\\', 'u'] + (Hex4(0xd800 + v / 0x400) + ("\\u" + (Hex4(0xdc00 + v % 0x400) + rest)));
    }
  }

  lemma CharSurvives(c: char, rest: string)
    ensures Escape(c) != "" && Escape(c)[0] != '"'
    ensures ReadChar(Escape(c) + rest) == Some(Read(c, rest))
  {
    EscapeKinds(c);
    hide ReadUnicode, Escape, UnicodeEscape;
    var t := Escape(c) + rest;
    if |Escape(c)| <= 2 {
      ShortEscapes(c, rest);
      if |Escape(c)| == 1 {
        assert t[1..] == rest;
      } else {
        assert t[1..] == [Escape(c)[1]] + rest;
      }
    } else {
      LongEscapes(c, rest);
      var code :| t == ['\\', 'u'] + code && ReadUnicode(code) == Some(Read(c, rest));
      assert t[0] == '\\' && t[1..] == ['u'] + code && (['u'] + code)[1..] == code;
    }
  }

  /** Every string comes back from its escapes, surrogate pairs included. */
  lemma {:induction false} StringSurvives(s: string, rest: string)
    ensures ReadString(Escapes(s) + "\"" + rest) == Some(Read(s, rest))
  {
    hide Escape, ReadChar;
    var t := Escapes(s) + "\"" + rest;
    if s == "" {
      assert t[1..] == rest;
    } else {
      var tail := Escapes(s[1..]) + "\"" + rest;
      assert t == Escape(s[0]) + tail;
      CharSurvives(s[0], tail);
      StringSurvives(s[1..], rest);
      assert s == [s[0]] + s[1..];
    }
  }

  // --- values survive ---

  predicate NumberToken(text: string) {
    text != "" && forall c | c in text :: NumberChar(c)
  }

  /** Every number is the token it prints as. */
  predicate Printable(v: Json)
    decreases Size(v), 0
  {
    match v
    case Num(text) => NumberToken(text)
    case Arr(items) => PrintableItems(items)
    case Obj(fields) => PrintableFields(fields)
    case _ => true
  }

  predicate PrintableItems(items: seq<Json>)
    decreases SizeItems(items), 1
  {
    items == [] || (Printable(items[0]) && PrintableItems(items[1..]))
  }

  predicate PrintableFields(fields: seq<Field>)
    decreases SizeFields(fields), 1
  {
    fields == [] || (Printable(fields[0].value) && PrintableFields(fields[1..]))
  }

  /** What can follow a value: the end, or a character no number continues with. */
  predicate Ends(rest: string) { rest == "" || !NumberChar(rest[0]) }

  lemma {:induction false} NumberSurvives(text: string, rest: string)
    requires forall c | c in text :: NumberChar(c)
    requires Ends(rest)
    ensures ReadNumber(text + rest) == Read(text, rest)
  {
    if text == "" {
      assert text + rest == rest;
    } else {
      assert (text + rest)[1..] == text[1..] + rest;
      NumberSurvives(text[1..], rest);
      assert text == [text[0]] + text[1..];
    }
  }

  /** The first character tells the kinds of value apart. */
  lemma FirstChar(v: Json)
    requires Printable(v)
    ensures var t := Print(v);
            t != "" && t[0] != ']' && t[0] != '}' &&
            (t[0] == '[' <==> v.Arr?) && (t[0] == '{' <==> v.Obj?) && (t[0] == '"' <==> v.Str?) &&
            (t[0] == 'n' <==> v.Null?) && (t[0] == 't' <==> v == Bool(true)) && (t[0] == 'f' <==> v == Bool(false))
  {
    if v.Num? { assert v.text[0] in v.text; }
  }

  lemma WordSurvives(word: string, rest: string, v: Json)
    requires word != ""
    ensures ReadWord(word + rest, word, v) == Some(Read(v, rest))
  {
    assert (word + rest)[|word|..] == rest;
  }

  lemma ScalarSurvives(v: Json, rest: string)
    requires Printable(v) && Ends(rest) && !v.Arr? && !v.Obj?
    ensures ReadValue(Print(v) + rest) == Some(Read(v, rest))
  {
    hide ReadString, ReadNumber, Escapes, ReadWord;
    var t := Print(v) + rest;
    FirstChar(v);
    assert t[0] == Print(v)[0];
    match v
    case Null => WordSurvives("null", rest, v);
    case Bool(b) => WordSurvives(if b then "true" else "false", rest, v);
    case Str(s) =>
      StringSurvives(s, rest);
      assert t == ['"'] + (Escapes(s) + "\"" + rest);
    case Num(text) => NumberSurvives(text, rest);
  }

  lemma ArraySurvives(items: seq<Json>, rest: string)
    requires PrintableItems(items)
    requires items != [] ==> ReadItems(PrintItems(items) + "]" + rest) == Some(Read(items, rest))
    ensures ReadValue(Print(Arr(items)) + rest) == Some(Read(Arr(items), rest))
  {
    hide ReadItems, Print;
    var body := PrintItems(items) + "]" + rest;
    assert Print(Arr(items)) == "[" + PrintItems(items) + "]" by { PrintedShapes(items, []); }
    assert Print(Arr(items)) + rest == ['['] + body;
    if items == [] {
      assert body == [']'] + rest;
    } else {
      FirstChar(items[0]);
      assert body[0] == Print(items[0])[0];
    }
  }

  lemma ObjectSurvives(fields: seq<Field>, rest: string)
    requires PrintableFields(fields)
    requires fields != [] ==> ReadFields(PrintFields(fields) + "}" + rest) == Some(Read(fields, rest))
    ensures ReadValue(Print(Obj(fields)) + rest) == Some(Read(Obj(fields), rest))
  {
    hide ReadFields, Print;
    var body := PrintFields(fields) + "}" + rest;
    assert Print(Obj(fields)) == "{" + PrintFields(fields) + "}" by { PrintedShapes([], fields); }
    assert Print(Obj(fields)) + rest == ['{'] + body;
    if fields == [] {
      assert body == ['}'] + rest;
    } else {
      assert body[0] == '"';
    }
  }

  lemma PrintedShapes(items: seq<Json>, fields: seq<Field>)
    ensures Print(Arr(items)) == "[" + PrintItems(items) + "]"
    ensures Print(Obj(fields)) == "{" + PrintFields(fields) + "}"
  {
  }

  /** Every value comes back from its canonical text. */
  lemma {:induction false} ValueSurvives(v: Json, rest: string)
    requires Printable(v) && Ends(rest)
    ensures ReadValue(Print(v) + rest) == Some(Read(v, rest))
    decreases Size(v), 0
  {
    hide ReadValue, Print, PrintItems, PrintFields;
    match v
    case Arr(items) =>
      if items != [] { ItemsSurvive(items, rest); }
      ArraySurvives(items, rest);
    case Obj(fields) =>
      if fields != [] { FieldsSurvive(fields, rest); }
      ObjectSurvives(fields, rest);
    case _ => ScalarSurvives(v, rest);
  }

  lemma {:induction false} ItemsSurvive(items: seq<Json>, rest: string)
    requires PrintableItems(items) && items != []
    ensures ReadItems(PrintItems(items) + "]" + rest) == Some(Read(items, rest))
    decreases SizeItems(items), 1
  {
    hide ReadValue, Print;
    var t := PrintItems(items) + "]" + rest;
    var first := Print(items[0]);
    if |items| == 1 {
      assert t == first + ([']'] + rest);
      ValueSurvives(items[0], [']'] + rest);
      assert items == [items[0]];
    } else {
      var more := PrintItems(items[1..]) + "]" + rest;
      assert t == first + ([','] + more);
      ValueSurvives(items[0], [','] + more);
      ItemsSurvive(items[1..], rest);
      assert items == [items[0]] + items[1..];
    }
  }

  lemma {:induction false} FieldSurvives(f: Field, rest: string)
    requires Printable(f.value) && Ends(rest)
    ensures ReadField(PrintField(f) + rest) == Some(Read(f, rest))
    decreases Size(f.value), 1
  {
    hide ReadValue, ReadString, Print, Escapes;
    var after := Print(f.value) + rest;
    var key := Escapes(f.key) + "\"" + ([':'] + after);
    assert PrintField(f) + rest == ['"'] + key;
    StringSurvives(f.key, [':'] + after);
    ValueSurvives(f.value, rest);
  }

  lemma {:induction false} FieldsSurvive(fields: seq<Field>, rest: string)
    requires PrintableFields(fields) && fields != []
    ensures ReadFields(PrintFields(fields) + "}" + rest) == Some(Read(fields, rest))
    decreases SizeFields(fields), 1
  {
    hide ReadField, PrintField;
    var t := PrintFields(fields) + "}" + rest;
    var first := PrintField(fields[0]);
    if |fields| == 1 {
      assert t == first + (['}'] + rest);
      FieldSurvives(fields[0], ['}'] + rest);
      assert fields == [fields[0]];
    } else {
      var more := PrintFields(fields[1..]) + "}" + rest;
      assert t == first + ([','] + more);
      FieldSurvives(fields[0], [','] + more);
      FieldsSurvive(fields[1..], rest);
      assert fields == [fields[0]] + fields[1..];
    }
  }

  /** So two values with one canonical text are one value. */
  lemma PrintIsInjective(a: Json, b: Json)
    requires Printable(a) && Printable(b)
    ensures Print(a) == Print(b) <==> a == b
  {
    ValueSurvives(a, "");
    ValueSurvives(b, "");
    assert Print(a) + "" == Print(a) && Print(b) + "" == Print(b);
  }

  // --- pure ASCII ---

  predicate Ascii(t: string) { forall c | c in t :: ' ' <= c <= '~' }

  lemma Hex4IsAscii(n: nat)
    requires n < 0x10000
    ensures Ascii(Hex4(n))
  {
    forall d: nat | d < 16 ensures ' ' <= HexDigit(d) <= '~' {}
  }

  lemma UnicodeEscapeIsAscii(c: char)
    ensures Ascii(UnicodeEscape(c))
  {
    hide Hex4;
    var cp := c as int;
    if cp < 0x10000 {
      Hex4IsAscii(cp);
    } else {
      var v := cp - 0x10000;
      Hex4IsAscii(0xd800 + v / 0x400);
      Hex4IsAscii(0xdc00 + v % 0x400);
    }
  }

  lemma EscapeIsAscii(c: char)
    ensures Ascii(Escape(c))
  {
    hide UnicodeEscape;
    UnicodeEscapeIsAscii(c);
  }

  lemma {:induction false} EscapesAreAscii(s: string)
    ensures Ascii(Escapes(s))
  {
    if s != "" {
      EscapeIsAscii(s[0]);
      EscapesAreAscii(s[1..]);
    }
  }

  /** The canonical text is printable ASCII, whatever the value holds. */
  lemma {:induction false} PrintIsAscii(v: Json)
    requires Printable(v)
    ensures Ascii(Print(v))
    decreases Size(v), 0
  {
    match v
    case Str(s) => EscapesAreAscii(s);
    case Arr(items) => ItemsAreAscii(items);
    case Obj(fields) => FieldsAreAscii(fields);
    case _ =>
  }

  lemma {:induction false} ItemsAreAscii(items: seq<Json>)
    requires PrintableItems(items)
    ensures Ascii(PrintItems(items))
    decreases SizeItems(items), 1
  {
    if items != [] {
      PrintIsAscii(items[0]);
      ItemsAreAscii(items[1..]);
    }
  }

  lemma {:induction false} FieldsAreAscii(fields: seq<Field>)
    requires PrintableFields(fields)
    ensures Ascii(PrintFields(fields))
    decreases SizeFields(fields), 1
  {
    if fields != [] {
      EscapesAreAscii(fields[0].key);
      PrintIsAscii(fields[0].value);
      FieldsAreAscii(fields[1..]);
    }
  }

  // --- to the letter ---

  const LOWER_CASE := "0123456789abcdef"

  lemma DigitIsLowerCase(n: nat)
    requires n < 16
    ensures HexDigit(n) == LOWER_CASE[n]
  {
  }

  lemma DigitsApart(a: nat, b: nat, c: nat, d: nat)
    requires a < 16 && b < 16 && c < 16 && d < 16
    ensures var n := a * 0x1000 + b * 0x100 + c * 0x10 + d;
            n / 0x1000 == a && n / 0x100 % 0x10 == b && n / 0x10 % 0x10 == c && n % 0x10 == d
  {
    var n := a * 0x1000 + b * 0x100 + c * 0x10 + d;
    assert n / 0x100 == a * 0x10 + b;
    assert n / 0x10 == (a * 0x10 + b) * 0x10 + c;
  }

  /** The hexadecimal digits of an escape are lower-case, most significant first. */
  lemma HexIsLowerCase(a: nat, b: nat, c: nat, d: nat)
    requires a < 16 && b < 16 && c < 16 && d < 16
    ensures Hex4(a * 0x1000 + b * 0x100 + c * 0x10 + d)
            == [LOWER_CASE[a], LOWER_CASE[b], LOWER_CASE[c], LOWER_CASE[d]]
  {
    hide HexDigit;
    DigitsApart(a, b, c, d);
    DigitIsLowerCase(a);
    DigitIsLowerCase(b);
    DigitIsLowerCase(c);
    DigitIsLowerCase(d);
  }

  /** A control character, a delete, or any other character of the basic plane is "\\u" and
      four digits. */
  lemma BasicEscapes(ch: char, a: nat, b: nat, c: nat, d: nat)
    requires a < 16 && b < 16 && c < 16 && d < 16
    requires ch as int == a * 0x1000 + b * 0x100 + c * 0x10 + d
    requires ch !in "\n\r\t\U{8}\U{c}" && (ch < ' ' || '~' < ch)
    ensures Escape(ch) == "\\u" + [LOWER_CASE[a], LOWER_CASE[b], LOWER_CASE[c], LOWER_CASE[d]]
  {
    hide Hex4;
    HexIsLowerCase(a, b, c, d);
    var short := "\n\r\t\U{8}\U{c}";
    assert short[0] == '\n' && short[1] == '\r' && short[2] == '\t' && short[3] == '\U{8}' && short[4] == '\U{c}';
  }

  /** One beyond it is two such escapes, as U+1F600 shows. */
  lemma AstralEscape()
    ensures Escape('\U{1f600}') == "\\ud83d\\ude00"
  {
    hide Hex4;
    HexIsLowerCase(13, 8, 3, 13);
    HexIsLowerCase(13, 14, 0, 0);
    var ch := '\U{1f600}';
    assert ch as int == 0x1f600;
    assert Escape(ch) == UnicodeEscape(ch);
    assert UnicodeEscape(ch) == "\\u" + Hex4(0xd83d) + "\\u" + Hex4(0xde00);
  }

  /** Seven characters have a short escape; the rest of printable ASCII stands for itself,
      the solidus too. */
  lemma PrintableEscapes(c: char)
    ensures Escape('"') == "\\\"" && Escape('\\') == "\\\\"
    ensures Escape('\n') == "\\n" && Escape('\r') == "\\r" && Escape('\t') == "\\t"
    ensures Escape('\U{8}') == "\\b" && Escape('\U{c}') == "\\f"
    ensures ' ' <= c <= '~' && c != '"' && c != '\\' ==> Escape(c) == [c]
  {
    hide UnicodeEscape;
  }

  /** No spaces: a comma between members, a colon after a key. */
  lemma LayoutIsTight(a: string, b: string, x: Json, y: Json)
    ensures Print(Obj([Field(a, x), Field(b, y)]))
            == "{" + PrintString(a) + ":" + Print(x) + "," + PrintString(b) + ":" + Print(y) + "}"
    ensures Print(Arr([x, y])) == "[" + Print(x) + "," + Print(y) + "]"
    ensures Print(Obj([])) == "{}" && Print(Arr([])) == "[]" && Print(Str("")) == "\"\""
    ensures Print(Null) == "null" && Print(Bool(true)) == "true" && Print(Bool(false)) == "false"
  {
    hide Escapes;
    var fields := [Field(a, x), Field(b, y)];
    assert fields[1..] == [Field(b, y)];
    assert PrintFields([Field(b, y)]) == PrintField(Field(b, y)) + "";
    assert PrintFields(fields) == PrintField(Field(a, x)) + ("," + PrintFields([Field(b, y)]));
    var items := [x, y];
    assert items[1..] == [y];
    assert PrintItems([y]) == Print(y) + "";
    assert PrintItems(items) == Print(x) + ("," + PrintItems([y]));
    assert Escapes("") == "" by { NoEscapes(); }
  }

  lemma NoEscapes()
    ensures Escapes("") == ""
  {
  }
}
