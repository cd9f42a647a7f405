/** The byte stream a program's fingerprint hashes, and what it determines. */
module Fingerprint {
  import opened Json
  import opened Canonical
  import opened Text
  import Printer

  /** A nonzero digit before the exponent. */
  predicate NonZero(text: string) {
    text != "" && text[0] != 'e' && text[0] != 'E' && ('1' <= text[0] <= '9' || NonZero(text[1..]))
  }

  /** Python's truth of a JSON value. */
  predicate Truthy(v: Json) {
    match v
    case Null => false
    case Bool(b) => b
    case Num(text) => NonZero(text)
    case Str(s) => s != ""
    case Arr(items) => items != []
    case Obj(fields) => fields != []
  }

  /** What is published of a program: its source, the values scanned out of it and
      its capability manifest. */
  datatype Content = Content(code: string, summary: string, anyTool: bool, category: string, manifest: Json)

  function Head(p: Content): string {
    p.code + "\0s\0" + p.summary + "\0t\0" + (if p.anyTool then "1" else "0")
  }

  function Preimage(p: Content): string {
    Head(p)
    + (if p.category == "" then "" else "\0c\0" + p.category)
    + (if Truthy(p.manifest) then "\0man\0" + Print(p.manifest) else "")
  }

  method Hashed(p: Content) returns (bytes: string)
    ensures bytes == Preimage(p)
  {
    hide Truthy, Print, Head;
    var h := new Printer.Buffer();
    PushHead(h, p);
    if p.category != "" {
      Appended(h.text, "\0c\0", p.category);
      h.Push("\0c\0");
      h.Push(p.category);
    }
    if Truthy(p.manifest) {
      Appended(h.text, "\0man\0", Print(p.manifest));
      h.Push("\0man\0");
      h.PushValue(p.manifest);
    }
    bytes := h.text;
  }

  method PushHead(h: Printer.Buffer, p: Content)
    requires h.text == ""
    modifies h
    ensures h.text == Head(p)
  {
    h.Push(p.code);
    assert h.text == p.code;
    h.Push("\0s\0");
    h.Push(p.summary);
    h.Push("\0t\0");
    h.Push(if p.anyTool then "1" else "0");
  }

  lemma Appended(a: string, b: string, c: string)
    ensures a + b + c == a + (b + c)
  {
  }

  // --- cutting the stream at its NULs ---

  predicate NulFree(s: string) { '\0' !in s }

  function Cut(t: string): seq<string> { Split(t, '\0') }

  /** The tagged parts the stream is cut into. */
  function Parts(p: Content): seq<string> {
    Cut(p.code) + ["s"] + Cut(p.summary) + ["t", if p.anyTool then "1" else "0"]
    + (if p.category == "" then [] else ["c"] + Cut(p.category))
    + (if Truthy(p.manifest) then ["man", Print(p.manifest)] else [])
  }

  lemma PrintIsNulFree(v: Json)
    requires Printable(v)
    ensures NulFree(Print(v))
  {
    PrintIsAscii(v);
  }

  lemma CutTagged(t: string, tag: string, body: string)
    requires NulFree(tag)
    ensures Cut(t + (['\0'] + tag + ['\0'] + body)) == Cut(t) + [tag] + Cut(body)
  {
    hide Split;
    SplitJoined(t, tag + ['\0'] + body, '\0');
    SplitJoined(tag, body, '\0');
    SplitWhole(tag, '\0');
    assert t + (['\0'] + tag + ['\0'] + body) == t + ['\0'] + (tag + ['\0'] + body);
  }

  lemma CutHead(p: Content)
    ensures Cut(Head(p)) == Cut(p.code) + ["s"] + Cut(p.summary) + ["t", if p.anyTool then "1" else "0"]
  {
    hide Split;
    var flag := if p.anyTool then "1" else "0";
    var first := p.code + "\0s\0" + p.summary;
    assert first == p.code + (['\0'] + "s" + ['\0'] + p.summary);
    CutTagged(p.code, "s", p.summary);
    assert Head(p) == first + (['\0'] + "t" + ['\0'] + flag);
    CutTagged(first, "t", flag);
    SplitWhole(flag, '\0');
  }

  lemma CutPreimage(p: Content)
    requires Printable(p.manifest)
    ensures Cut(Preimage(p)) == Parts(p)
  {
    hide Split, Print, Truthy, Printable;
    CutHead(p);
    var named := Head(p) + (if p.category == "" then "" else "\0c\0" + p.category);
    if p.category != "" {
      assert "\0c\0" + p.category == ['\0'] + "c" + ['\0'] + p.category;
      CutTagged(Head(p), "c", p.category);
    } else {
      assert named == Head(p);
    }
    if Truthy(p.manifest) {
      assert "\0man\0" + Print(p.manifest) == ['\0'] + "man" + ['\0'] + Print(p.manifest);
      CutTagged(named, "man", Print(p.manifest));
      PrintIsNulFree(p.manifest);
      SplitWhole(Print(p.manifest), '\0');
    } else {
      assert Preimage(p) == named + "";
      assert named + "" == named;
    }
  }

  // --- what it determines ---

  /** Manifests count only up to falsy: an empty one and none at all are the same. */
  predicate SameManifest(a: Json, b: Json) { a == b || (!Truthy(a) && !Truthy(b)) }

  predicate SameContent(p: Content, q: Content) {
    p.(manifest := Null) == q.(manifest := Null) && SameManifest(p.manifest, q.manifest)
  }

  predicate NulFreeTexts(p: Content) { NulFree(p.code) && NulFree(p.summary) && NulFree(p.category) }

  lemma PrintIsNoTag(v: Json)
    requires Printable(v)
    ensures Print(v) != "t"
  {
    FirstChar(v);
    assert "t"[0] == 't';
  }

  /** A stream with NUL-free texts is cut at its tags, so any stream equal to it is
      cut there too. */
  lemma PartsAlign(p: Content, q: Content)
    requires NulFreeTexts(p) && NulFree(q.category) && Printable(p.manifest) && Printable(q.manifest)
    requires Parts(p) == Parts(q)
    ensures |Cut(q.code)| == 1 && |Cut(q.summary)| == 1
  {
    hide Split, Print, Truthy, Printable;
    PrintIsNoTag(p.manifest);
    SplitWhole(p.code, '\0');
    SplitWhole(p.summary, '\0');
    SplitWhole(p.category, '\0');
    SplitWhole(q.category, '\0');
    var n := |Cut(q.code)| + |Cut(q.summary)|;
    var s := Parts(p);
    assert s[3] == "t" && s[4] in ["0", "1"];
    assert |s| > 5 ==> s[5] in ["c", "man"];
    assert |s| > 7 ==> s[7] == "man";
    assert |s| > 6 ==> s[6] == p.category || s[6] == Print(p.manifest);
    assert Parts(q)[n + 1] == "t" && Parts(q)[n + 2] in ["0", "1"];
  }

  /** The fingerprint separates: where one side's texts are free of NUL and the
      other's category is, equal streams mean equal content. */
  lemma StreamDeterminesContent(p: Content, q: Content)
    requires NulFreeTexts(p) && NulFree(q.category) && Printable(p.manifest) && Printable(q.manifest)
    ensures Preimage(p) == Preimage(q) <==> SameContent(p, q)
  {
    hide Split, Print, Printable, Truthy;
    if Preimage(p) == Preimage(q) {
      CutPreimage(p);
      CutPreimage(q);
      PartsAlign(p, q);
      SplitWhole(p.code, '\0');
      SplitWhole(p.summary, '\0');
      SplitWhole(p.category, '\0');
      SplitWhole(q.code, '\0');
      SplitWhole(q.summary, '\0');
      SplitWhole(q.category, '\0');
      AlignedParts(p, q);
    }
  }

  lemma AlignedParts(p: Content, q: Content)
    requires Printable(p.manifest) && Printable(q.manifest) && Parts(p) == Parts(q)
    requires Cut(p.code) == [p.code] && Cut(p.summary) == [p.summary] && Cut(p.category) == [p.category]
    requires Cut(q.code) == [q.code] && Cut(q.summary) == [q.summary] && Cut(q.category) == [q.category]
    ensures SameContent(p, q)
  {
    hide Split, Print, Printable, Truthy;
    PrintIsInjective(p.manifest, q.manifest);
    var s, t := Parts(p), Parts(q);
    assert s[0] == p.code && t[0] == q.code && s[2] == p.summary && t[2] == q.summary;
    assert s[4] == t[4];
    var c, d := p.category != "", q.category != "";
    assert |s| > 5 ==> s[5] == if c then "c" else "man";
    assert |t| > 5 ==> t[5] == if d then "c" else "man";
    assert c ==> s[6] == p.category;
    assert d ==> t[6] == q.category;
    var i := if c then 7 else 5;
    assert Truthy(p.manifest) ==> s[i + 1] == Print(p.manifest) && |s| == i + 2;
    assert !Truthy(p.manifest) ==> |s| == i;
    var j := if d then 7 else 5;
    assert Truthy(q.manifest) ==> t[j + 1] == Print(q.manifest) && |t| == j + 2;
    assert !Truthy(q.manifest) ==> |t| == j;
  }

  /** With NULs in the texts the tags can be forged: different programs, one stream. */
  lemma NulsForgeTags()
    ensures var p := Content("a\0s\0b", "c", false, "", Null);
            var q := Content("a", "b\0s\0c", false, "", Null);
            p != q && Preimage(p) == Preimage(q)
  {
    var p := Content("a\0s\0b", "c", false, "", Null);
    var q := Content("a", "b\0s\0c", false, "", Null);
    assert |p.code| == 5 && |q.code| == 1;
    assert "a\0s\0b" + "\0s\0" + "c" == "a" + "\0s\0" + "b\0s\0c";
  }

  // --- to the letter ---

  /** A digit other than zero, and no exponent before it. */
  predicate NonZeroAt(text: string, k: nat)
    requires k < |text|
  {
    '1' <= text[k] <= '9' && forall j | 0 <= j < k :: text[j] != 'e' && text[j] != 'E'
  }

  /** A number is false where it has no digit but zeros before its exponent. */
  lemma {:induction false} ZeroNumbers(text: string)
    ensures Truthy(Num(text)) <==> exists k | 0 <= k < |text| :: NonZeroAt(text, k)
  {
    if text != "" {
      ZeroNumbers(text[1..]);
      if Truthy(Num(text[1..])) && text[0] != 'e' && text[0] != 'E' {
        var k :| 0 <= k < |text[1..]| && NonZeroAt(text[1..], k);
        forall j | 0 <= j < k + 1 ensures text[j] != 'e' && text[j] != 'E' {
          if j > 0 { assert text[j] == text[1..][j - 1]; }
        }
        assert NonZeroAt(text, k + 1);
      }
      if k :| 0 <= k < |text| && NonZeroAt(text, k) {
        if k > 0 {
          assert text[0] != 'e' && text[0] != 'E';
          forall j | 0 <= j < k - 1 ensures text[1..][j] != 'e' && text[1..][j] != 'E' {
            assert text[1..][j] == text[j + 1];
          }
          assert NonZeroAt(text[1..], k - 1);
        } else {
          assert '1' <= text[0] <= '9';
        }
      }
      if '1' <= text[0] <= '9' { assert NonZeroAt(text, 0); }
    }
  }

  /** The stream of a program with everything, and of one with nothing: empty categories and
      false manifests leave no tag. */
  lemma StreamReads(code: string, summary: string, category: string)
    requires category != ""
    ensures Preimage(Content(code, summary, true, category, Obj([Field("net", Bool(true))])))
            == code + "\0s\0" + summary + "\0t\01" + "\0c\0" + category + "\0man\0" + "{\"net\":true}"
    ensures forall manifest | manifest in {Null, Bool(false), Str(""), Arr([]), Obj([])} ::
              Preimage(Content(code, summary, false, "", manifest)) == code + "\0s\0" + summary + "\0t\00"
  {
    ManifestPrints();
    hide Print;
    var head := Head(Content(code, summary, true, category, Obj([Field("net", Bool(true))])));
    var named := head + "\0c\0" + category;
    assert code + "\0s\0" + summary + "\0t\0" + "1" == code + "\0s\0" + summary + "\0t\01";
    assert head + ("\0c\0" + category) == named;
    assert named + ("\0man\0" + "{\"net\":true}") == named + "\0man\0" + "{\"net\":true}";
    assert code + "\0s\0" + summary + "\0t\0" + "0" == code + "\0s\0" + summary + "\0t\00";
  }

  lemma ManifestPrints()
    ensures Print(Obj([Field("net", Bool(true))])) == "{\"net\":true}"
  {
    hide Escape, UnicodeEscape;
    var f := Field("net", Bool(true));
    assert [f][1..] == [];
    assert PrintFields([f]) == PrintField(f) + "";
    assert Escapes("net") == "net" by { ThreeLetters(); }
    assert PrintString("net") == "\"net\"";
    assert PrintField(f) == "\"net\":true";
  }

  lemma ThreeLetters()
    ensures Escapes("net") == "net"
  {
    hide UnicodeEscape;
    assert "net"[1..] == "et" && "et"[1..] == "t" && "t"[1..] == "";
    assert Escapes("t") == "t";
    assert Escapes("et") == "et";
  }
}
