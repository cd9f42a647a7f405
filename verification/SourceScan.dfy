/** The convention check on a tool's source: does it define a public span? */
module SourceScan {
  /** Unicode White_Space, which `trim_start` drops. */
  predicate White(c: char) {
    '\t' <= c <= '\r' || c == ' ' || c == '\U{85}' || c == '\U{A0}' || c == '\U{1680}' || '\U{2000}' <= c <= '\U{200A}' ||
    c == '\U{2028}' || c == '\U{2029}' || c == '\U{202F}' || c == '\U{205F}' || c == '\U{3000}'
  }

  function TrimStart(s: string): string {
    if s != "" && White(s[0]) then TrimStart(s[1..]) else s
  }

  predicate IsSpan(line: string) { "@span(" <= TrimStart(line) }

  /** Another decorator, a comment or a blank line keeps a span waiting. */
  predicate Keeps(line: string) {
    var t := TrimStart(line);
    t == "" || t[0] == '@' || t[0] == '#'
  }

  predicate IsDef(line: string) { "def " <= TrimStart(line) }

  predicate IsPublicDef(line: string) {
    IsDef(line) && !("_" <= TrimStart(line)[|"def "|..])
  }

  /** A span decorator at i reaches the line at j. */
  predicate Reaches(lines: seq<string>, i: nat, j: nat) {
    i < j <= |lines| && IsSpan(lines[i]) && forall k | i < k < j :: Keeps(lines[k])
  }

  /** Some span decorator still waits for its definition at line n. */
  predicate Waiting(lines: seq<string>, n: nat) {
    exists i :: 0 <= i < n && Reaches(lines, i, n)
  }

  predicate PublicSpanBefore(lines: seq<string>, n: nat)
    requires n <= |lines|
  {
    exists i, j :: 0 <= i < j < n && Reaches(lines, i, j) && IsPublicDef(lines[j])
  }

  lemma LineKinds(line: string)
    ensures IsSpan(line) ==> Keeps(line)
    ensures IsDef(line) ==> !Keeps(line)
  {
    var t := TrimStart(line);
    if "@span(" <= t { assert t[0] == "@span("[0]; }
    if "def " <= t { assert t[0] == "def "[0]; }
  }

  /** One pass with one flag finds a public definition under a span exactly when there
      is one, whatever decorators, comments and blank lines stand between. */
  method HasPublicSpanDef(lines: seq<string>) returns (found: bool)
    ensures found <==> PublicSpanBefore(lines, |lines|)
  {
    hide IsSpan, Keeps, IsDef;
    var pending := false;
    for n := 0 to |lines|
      invariant pending <==> Waiting(lines, n)
      invariant !PublicSpanBefore(lines, n)
    {
      LineKinds(lines[n]);
      NextReach(lines, n);
      if IsSpan(lines[n]) {
        pending := true;
      } else if Keeps(lines[n]) {
      } else if IsDef(lines[n]) {
        if pending && IsPublicDef(lines[n]) {
          return true;
        }
        pending := false;
      } else {
        pending := false;
      }
    }
    found := false;
  }

  lemma NextReach(lines: seq<string>, n: nat)
    requires n < |lines|
    ensures Waiting(lines, n + 1) <==> IsSpan(lines[n]) || (Keeps(lines[n]) && Waiting(lines, n))
  {
    var m := n + 1;
    if IsSpan(lines[n]) { assert Reaches(lines, n, m); }
    if i :| 0 <= i < n && Reaches(lines, i, n) && Keeps(lines[n]) { assert Reaches(lines, i, m); }
    if i :| 0 <= i < n && Reaches(lines, i, m) { assert Reaches(lines, i, n); }
  }

  // --- on lines ---

  /** What stands before the first character that is no white space does not count. */
  lemma {:induction false} Indented(s: string, line: string)
    requires (forall c | c in s :: c == ' ' || c == '\t') && (line == "" || !White(line[0]))
    ensures TrimStart(s + line) == line
  {
    if s == "" {
      assert s + line == line;
    } else {
      assert (s + line)[1..] == s[1..] + line && s[0] in s;
      forall c | c in s[1..] ensures c in s {}
      Indented(s[1..], line);
    }
  }

  lemma Unindented(line: string)
    requires line == "" || !White(line[0])
    ensures TrimStart(line) == line
  {
  }

  /** A decorated definition is found, also with another decorator, a comment and a blank
      line between, and however the lines are indented. */
  lemma FindsTheDecorated(pad: string, title: string, name: string, note: string)
    requires (forall c | c in pad :: c == ' ' || c == '\t') && !("_" <= name)
    ensures var lines := [pad + ("@span(" + title), pad + ("@" + note), pad + ("#" + note), pad, pad + ("def " + name)];
            PublicSpanBefore(lines, 5)
  {
    var lines := [pad + ("@span(" + title), pad + ("@" + note), pad + ("#" + note), pad, pad + ("def " + name)];
    assert ("@span(" + title)[0] == '@' && ("@" + note)[0] == '@' && ("#" + note)[0] == '#'
        && ("def " + name)[0] == 'd';
    Indented(pad, "@span(" + title);
    Indented(pad, "@" + note);
    Indented(pad, "#" + note);
    assert pad + "" == pad;
    Indented(pad, "");
    Indented(pad, "def " + name);
    assert ("def " + name)[4..] == name;
    hide TrimStart, White;
    assert Keeps(lines[1]) && Keeps(lines[2]) && Keeps(lines[3]);
    assert Reaches(lines, 0, 4);
    assert IsPublicDef(lines[4]);
  }

  /** One that is private is not, nor one that a statement parts from its decorator, nor one
      without. */
  lemma PassesTheRest(title: string, name: string, other: string)
    requires other != "" && other[0] != '@' && other[0] != '#' && !White(other[0]) && !("def " <= other)
    ensures !PublicSpanBefore(["@span(" + title, "def _" + name], 2)
    ensures !PublicSpanBefore(["@span(" + title, other, "def " + name], 3)
    ensures !PublicSpanBefore(["@tool", "def " + name], 2)
  {
    Unindented("@span(" + title);
    Unindented("def _" + name);
    Unindented(other);
    Unindented("def " + name);
    Unindented("@tool");
    hide TrimStart, White;
    assert ("@span(" + title)[0] == '@' && ("def _" + name)[0] == 'd' && ("def " + name)[0] == 'd';
    assert ("def _" + name)[4..] == "_" + name && ("_" + name)[0] == '_';
    assert "@tool"[1] == 't' && "@span("[1] == 's' && "def "[0] == 'd' && "@span("[0] == '@' && "@tool"[0] == '@';
    assert !IsDef("@span(" + title) && !IsDef("@tool") && !IsSpan("@tool") && !IsSpan("def " + name)
        && !IsSpan("def _" + name);
    assert !IsPublicDef("def _" + name);
    assert !Keeps(other) && !IsSpan(other) && !IsDef(other);
    hide IsSpan, Keeps, IsDef;
    var parted := ["@span(" + title, other, "def " + name];
    assert !IsPublicDef(parted[0]) && !IsPublicDef(parted[1]) && !Reaches(parted, 0, 2) && !IsSpan(parted[1]);
  }
}
