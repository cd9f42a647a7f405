/** Event streams: characters to lines to frames, and back (section 9.2 of the WHATWG
    HTML Standard, with LF line ends). */
module Sse {
  import opened Options
  import opened Text

  /** A frame with its data as text; decoding that text as JSON happens per frame. */
  datatype Frame = Frame(event: string, raw: string)

  // --- lines ---

  /** One line off the front: up to and without the next line feed, or all there is. */
  function TakeLine(t: string): (r: (string, string))
    ensures '\n' !in r.0
    ensures t != "" ==> |r.1| < |t|
    ensures t == r.0 + r.1 || t == r.0 + ['\n'] + r.1
  {
    if t == "" then ("", "")
    else if t[0] == '\n' then ("", t[1..])
    else
      var (line, rest) := TakeLine(t[1..]);
      assert t == [t[0]] + t[1..];
      ([t[0]] + line, rest)
  }

  function Lines(t: string): seq<string>
    decreases |t|
  {
    if t == "" then [] else var (line, rest) := TakeLine(t); [line] + Lines(rest)
  }

  class RawLines {
    var rest: string

    constructor (text: string)
      ensures rest == text
    {
      rest := text;
    }

    method Next() returns (line: Option<string>)
      modifies this
      ensures line.None? <==> Lines(old(rest)) == []
      ensures line.Some? ==> Lines(old(rest)) == [line.value] + Lines(rest)
      ensures line.None? ==> rest == ""
    {
      if rest == "" {
        return None;
      }
      hide TakeLine;
      var buf, fed := "", false;
      ghost var whole := TakeLine(rest);
      LineEnds(whole.0);
      while rest != "" && !fed
        invariant !fed ==> buf + TakeLine(rest).0 == whole.0 && TakeLine(rest).1 == whole.1
        invariant fed ==> buf == whole.0 + ['\n'] && rest == whole.1
        decreases |rest|
      {
        fed := rest[0] == '\n';
        buf := buf + [rest[0]];
        rest := rest[1..];
      }
      LineEnds(buf);
      if buf != "" && buf[|buf| - 1] == '\n' {
        buf := buf[..|buf| - 1];
      }
      line := Some(buf);
    }
  }

  lemma LineEnds(buf: string)
    ensures TakeLine("") == ("", "") && buf + "" == buf && "" + buf == buf && (buf + ['\n'])[..|buf|] == buf
  {
  }

  // --- frames ---

  /** `line.split_once(':')`, one leading space of the value dropped. */
  function FieldOf(line: string): (string, string) {
    if line == "" then ("", "")
    else if line[0] == ':' then ("", if line[1..] != "" && line[1] == ' ' then line[2..] else line[1..])
    else var (field, value) := FieldOf(line[1..]); ([line[0]] + field, value)
  }

  /** A frame in the making. */
  datatype Draft = Draft(event: string, data: seq<string>)

  const FRESH := Draft("message", [])

  /** A line that is not blank. */
  function Fold(d: Draft, line: string): Draft
    requires line != ""
  {
    if line[0] == ':' then d
    else
      var (field, value) := FieldOf(line);
      if field == "event" then d.(event := value)
      else if field == "data" then d.(data := d.data + [value])
      else d
  }

  function Parse(lines: seq<string>, d: Draft): seq<Frame> {
    if lines == [] then []
    else if lines[0] != "" then Parse(lines[1..], Fold(d, lines[0]))
    else (if d.data == [] then [] else [Frame(d.event, Join(d.data, '\n'))]) + Parse(lines[1..], FRESH)
  }

  function Frames(lines: seq<string>): seq<Frame> { Parse(lines, FRESH) }

  /** The frame iterator over the lines still to come. */
  class SseFrames {
    var lines: seq<string>

    constructor (source: seq<string>)
      ensures lines == source
    {
      lines := source;
    }

    method Next() returns (frame: Option<Frame>)
      modifies this
      ensures match frame
              case Some(f) => Frames(old(lines)) == [f] + Frames(lines)
              case None => Frames(old(lines)) == [] && lines == []
    {
      hide FieldOf, Join;
      var event, data := "message", [];
      while lines != []
        invariant Parse(lines, Draft(event, data)) == Frames(old(lines))
        decreases |lines|
      {
        var line := lines[0];
        lines := lines[1..];
        if line == "" {
          if data != [] {
            return Some(Frame(event, Join(data, '\n')));
          }
          event, data := "message", [];
          continue;
        }
        if line[0] == ':' {
          continue;
        }
        var (field, value) := FieldOf(line);
        if field == "event" {
          event := value;
        } else if field == "data" {
          data := data + [value];
        }
      }
      return None;
    }
  }

  // --- printing ---

  function DataLines(parts: seq<string>): seq<string> {
    if parts == [] then [] else ["data: " + parts[0]] + DataLines(parts[1..])
  }

  function FrameLines(f: Frame): seq<string> {
    ["event: " + f.event] + DataLines(Split(f.raw, '\n')) + [""]
  }

  function AllLines(frames: seq<Frame>): seq<string> {
    if frames == [] then [] else FrameLines(frames[0]) + AllLines(frames[1..])
  }

  function Render(lines: seq<string>): string {
    if lines == [] then "" else lines[0] + ['\n'] + Render(lines[1..])
  }

  predicate OneLine(f: Frame) { '\n' !in f.event }

  // --- parsing undoes printing ---

  lemma {:induction false} TakeFirst(line: string, rest: string)
    requires '\n' !in line
    ensures TakeLine(line + ['\n'] + rest) == (line, rest)
  {
    var t := line + ['\n'] + rest;
    if line == "" {
      assert t[1..] == rest;
    } else {
      assert t[1..] == line[1..] + ['\n'] + rest;
      TakeFirst(line[1..], rest);
      assert line == [line[0]] + line[1..];
    }
  }

  lemma {:induction false} LinesOfText(lines: seq<string>, rest: string)
    requires forall l | l in lines :: '\n' !in l
    ensures Lines(Render(lines) + rest) == lines + Lines(rest)
  {
    hide TakeLine;
    if lines == [] {
      assert Render(lines) + rest == rest && [] + Lines(rest) == Lines(rest);
    } else {
      var more := Render(lines[1..]) + rest;
      assert Render(lines) + rest == lines[0] + ['\n'] + more;
      TakeFirst(lines[0], more);
      LinesOfText(lines[1..], rest);
      assert lines == [lines[0]] + lines[1..];
      assert Lines(lines[0] + ['\n'] + more) == [lines[0]] + Lines(more);
    }
  }

  lemma {:induction false} FieldPrinted(field: string, value: string)
    requires ':' !in field
    ensures FieldOf(field + ": " + value) == (field, value)
  {
    var t := field + ": " + value;
    if field == "" {
      assert t[1..] == " " + value && t[2..] == value;
    } else {
      assert t[1..] == field[1..] + ": " + value;
      FieldPrinted(field[1..], value);
      assert field == [field[0]] + field[1..];
    }
  }

  lemma DataFolds(d: Draft, value: string)
    ensures Fold(d, "data: " + value) == d.(data := d.data + [value])
  {
    FieldPrinted("data", value);
    assert "data" + ": " + value == "data: " + value;
    assert "data"[0] != "event"[0];
    assert ("data: " + value)[0] == 'd';
  }

  lemma EventFolds(d: Draft, value: string)
    ensures Fold(d, "event: " + value) == d.(event := value)
  {
    FieldPrinted("event", value);
    assert "event" + ": " + value == "event: " + value;
    assert ("event: " + value)[0] == 'e';
  }

  lemma {:induction false} DataParsed(parts: seq<string>, d: Draft, rest: seq<string>)
    ensures Parse(DataLines(parts) + rest, d) == Parse(rest, d.(data := d.data + parts))
  {
    hide Fold;
    if parts == [] {
      assert DataLines(parts) + rest == rest && d.data + parts == d.data;
    } else {
      var lines := DataLines(parts) + rest;
      DataFolds(d, parts[0]);
      assert lines[0] == "data: " + parts[0] && lines[1..] == DataLines(parts[1..]) + rest;
      DataParsed(parts[1..], d.(data := d.data + [parts[0]]), rest);
      assert d.data + [parts[0]] + parts[1..] == d.data + parts;
    }
  }

  lemma FrameParsed(f: Frame, rest: seq<string>)
    ensures Frames(FrameLines(f) + rest) == [f] + Frames(rest)
  {
    hide Fold, Split, Join;
    var parts := Split(f.raw, '\n');
    var lines := FrameLines(f) + rest;
    EventFolds(FRESH, f.event);
    assert lines[0] == "event: " + f.event && lines[1..] == DataLines(parts) + ([""] + rest);
    DataParsed(parts, FRESH.(event := f.event), [""] + rest);
    SplitJoins(f.raw, '\n');
    assert [] + parts == parts;
    assert ([""] + rest)[1..] == rest;
  }

  lemma {:induction false} AllParsed(frames: seq<Frame>)
    ensures Frames(AllLines(frames)) == frames
  {
    if frames != [] {
      FrameParsed(frames[0], AllLines(frames[1..]));
      AllParsed(frames[1..]);
      assert frames == [frames[0]] + frames[1..];
    }
  }

  lemma {:induction false} DataIsOneLine(parts: seq<string>)
    requires forall p | p in parts :: '\n' !in p
    ensures forall l | l in DataLines(parts) :: '\n' !in l
  {
    if parts != [] { DataIsOneLine(parts[1..]); }
  }

  lemma {:induction false} PrintedIsLines(frames: seq<Frame>)
    requires forall f | f in frames :: OneLine(f)
    ensures forall l | l in AllLines(frames) :: '\n' !in l
  {
    if frames != [] {
      SplitJoins(frames[0].raw, '\n');
      DataIsOneLine(Split(frames[0].raw, '\n'));
      PrintedIsLines(frames[1..]);
      assert OneLine(frames[0]);
    }
  }

  /** Any frames written as an event stream read back as themselves, data of many
      lines included. */
  lemma StreamsRoundTrip(frames: seq<Frame>)
    requires forall f | f in frames :: OneLine(f)
    ensures Frames(Lines(Render(AllLines(frames)))) == frames
  {
    PrintedIsLines(frames);
    LinesOfText(AllLines(frames), "");
    assert Render(AllLines(frames)) + "" == Render(AllLines(frames));
    assert AllLines(frames) + [] == AllLines(frames);
    AllParsed(frames);
  }

  // --- comments, boundaries, truncation ---

  /** Comment lines (heartbeats) change nothing, wherever they are. */
  lemma {:induction false} CommentsChangeNothing(before: seq<string>, comment: string, after: seq<string>, d: Draft)
    ensures Parse(before + [":" + comment] + after, d) == Parse(before + after, d)
  {
    hide Fold;
    var lines := before + [":" + comment] + after;
    if before == [] {
      assert Fold(d, ":" + comment) == d by { CommentFolds(d, comment); }
      assert lines[0] == ":" + comment && lines[1..] == after && before + after == after;
    } else {
      assert lines[1..] == before[1..] + [":" + comment] + after && (before + after)[1..] == before[1..] + after;
      CommentsChangeNothing(before[1..], comment, after, if before[0] == "" then FRESH else Fold(d, before[0]));
    }
  }

  lemma CommentFolds(d: Draft, comment: string)
    ensures Fold(d, ":" + comment) == d
  {
  }

  /** Parsing distributes over concatenation at a dispatch boundary. */
  lemma {:induction false} ParsesInPieces(a: seq<string>, b: seq<string>, d: Draft)
    ensures Parse(a + [""] + b, d) == Parse(a + [""], d) + Frames(b)
  {
    hide Fold, Join;
    var lines := a + [""] + b;
    if a == [] {
      assert lines[0] == "" && lines[1..] == b && (a + [""])[1..] == [];
    } else {
      assert lines[1..] == a[1..] + [""] + b && (a + [""])[1..] == a[1..] + [""];
      ParsesInPieces(a[1..], b, if a[0] == "" then FRESH else Fold(d, a[0]));
    }
  }

  /** A trailing frame with no blank line after it is dropped. */
  lemma {:induction false} UnterminatedIsDropped(a: seq<string>, tail: seq<string>)
    requires "" !in tail
    ensures Frames(a + [""] + tail) == Frames(a + [""])
    ensures Frames(tail) == []
  {
    ParsesInPieces(a, tail, FRESH);
    NoDispatch(tail, FRESH);
  }

  lemma {:induction false} NoDispatch(lines: seq<string>, d: Draft)
    requires "" !in lines
    ensures Parse(lines, d) == []
  {
    hide Fold;
    if lines != [] { NoDispatch(lines[1..], Fold(d, lines[0])); }
  }

  lemma {:induction false} LinesInPieces(a: string, b: string)
    ensures Lines(a + ['\n'] + b) == Lines(a + ['\n']) + Lines(b)
    decreases |a|
  {
    hide TakeLine;
    var (line, rest) := TakeLine(a);
    if '\n' !in a {
      TakeFirst(a, b);
      TakeFirst(a, "");
      assert a + ['\n'] + "" == a + ['\n'];
    } else {
      var i := IndexOf(a, '\n').value;
      var more := a[i + 1..];
      Around(a, i, ['\n'] + b);
      Around(a, i, ['\n']);
      assert a + ['\n'] + b == a + (['\n'] + b) && more + ['\n'] + b == more + (['\n'] + b);
      TakeFirst(a[..i], more + ['\n'] + b);
      TakeFirst(a[..i], more + ['\n']);
      LinesInPieces(more, b);
    }
  }

  lemma Around(a: string, i: nat, b: string)
    requires i < |a|
    ensures a + b == a[..i] + [a[i]] + (a[i + 1..] + b)
  {
    assert a == a[..i] + [a[i]] + a[i + 1..];
  }

  lemma {:induction false} EndsBlank(a: string)
    ensures exists lines :: Lines(a + ['\n', '\n']) == lines + [""]
  {
    assert a + ['\n', '\n'] == a + ['\n'] + ['\n'];
    LinesInPieces(a, ['\n']);
    assert ['\n'][1..] == "";
    assert Lines(['\n']) == [""] + Lines("") == [""];
  }

  /** The same on the characters: what follows a blank line parses on its own. */
  lemma StreamsConcatenate(a: string, b: string)
    ensures Frames(Lines(a + ['\n', '\n'] + b)) == Frames(Lines(a + ['\n', '\n'])) + Frames(Lines(b))
  {
    assert a + ['\n', '\n'] + b == (a + ['\n']) + ['\n'] + b && a + ['\n', '\n'] == (a + ['\n']) + ['\n'];
    LinesInPieces(a + ['\n'], b);
    EndsBlank(a);
    var lines :| Lines(a + ['\n', '\n']) == lines + [""];
    ParsesInPieces(lines, Lines(b), FRESH);
  }

  // --- lines by themselves ---

  lemma OneField(field: string, value: string)
    requires ':' !in field && field != ""
    ensures FieldOf(field + [':'] + value) == (field, if value != "" && value[0] == ' ' then value[1..] else value)
    ensures FieldOf(field) == (field, "")
    decreases |field|
  {
    var t := field + [':'] + value;
    if |field| == 1 {
      assert t[1..] == [':'] + value && ([':'] + value)[1..] == value && field[1..] == "";
      if value != "" { assert ([':'] + value)[2..] == value[1..]; }
    } else {
      assert t[1..] == field[1..] + [':'] + value;
      OneField(field[1..], value);
    }
    assert field == [field[0]] + field[1..];
  }

  /** A frame without an event line is a "message"; its data is what follows "data:" and at
      most one space. */
  lemma PlainFrame(data: string)
    ensures Frames(["data: " + data, ""]) == [Frame("message", data)]
    ensures data == "" || data[0] != ' ' ==> Frames(["data:" + data, ""]) == [Frame("message", data)]
  {
    hide FieldOf;
    var d := FRESH.(data := [data]);
    assert [] + [data] == [data];
    DataFolds(FRESH, data);
    TwoLines("data: " + data, d);
    if data == "" || data[0] != ' ' {
      TightDataFolds(FRESH, data);
      TwoLines("data:" + data, d);
    }
  }

  lemma TightDataFolds(d: Draft, data: string)
    requires data == "" || data[0] != ' '
    ensures Fold(d, "data:" + data) == d.(data := d.data + [data])
  {
    hide FieldOf;
    OneField("data", data);
    assert "data" + [':'] + data == "data:" + data && ("data:" + data)[0] == 'd' && "data"[0] != "event"[0];
  }

  lemma TwoLines(line: string, d: Draft)
    requires line != "" && Fold(FRESH, line) == d && |d.data| == 1
    ensures Frames([line, ""]) == [Frame(d.event, d.data[0])]
  {
    hide Fold;
    assert [line, ""][1..] == [""] && [""][1..] == [];
    assert Parse([""], d) == [Frame(d.event, Join(d.data, '\n'))] + Parse([], FRESH);
  }

  lemma NextLine(line: string, rest: seq<string>, d: Draft)
    ensures var frames := if d.data == [] then [] else [Frame(d.event, Join(d.data, '\n'))];
            Parse([line] + rest, d) ==
            if line == "" then frames + Parse(rest, FRESH) else Parse(rest, Fold(d, line))
  {
    assert ([line] + rest)[1..] == rest;
  }

  /** An event line names the frame it is in and no later one, also when that frame has no
      data and is dropped. */
  lemma EventsEndWithTheirFrame(event: string, data: string, rest: seq<string>)
    ensures Frames(["event: " + event, "data: " + data, ""] + rest) == [Frame(event, data)] + Frames(rest)
    ensures Frames(["event: " + event, ""] + rest) == Frames(rest)
  {
    hide Fold, Parse;
    var named := FRESH.(event := event);
    var full := named.(data := [data]);
    EventFolds(FRESH, event);
    DataFolds(named, data);
    assert [] + [data] == [data];
    NextLine("event: " + event, ["data: " + data, ""] + rest, FRESH);
    NextLine("data: " + data, [""] + rest, named);
    NextLine("", rest, full);
    assert ["event: " + event, "data: " + data, ""] + rest == ["event: " + event] + (["data: " + data, ""] + rest);
    assert ["data: " + data, ""] + rest == ["data: " + data] + ([""] + rest);
    NextLine("event: " + event, [""] + rest, FRESH);
    NextLine("", rest, named);
    assert ["event: " + event, ""] + rest == ["event: " + event] + ([""] + rest);
  }

  /** Other fields are passed over. */
  lemma OtherFieldsAreIgnored(d: Draft, field: string, value: string)
    requires field != "" && ':' !in field && field != "event" && field != "data"
    ensures Fold(d, field + [':'] + value) == d && Fold(d, field) == d
  {
    hide FieldOf;
    OneField(field, value);
    assert field[0] in field && (field + [':'] + value)[0] == field[0];
  }
}
