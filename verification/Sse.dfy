/**
  The line loop that reads an upstream event stream (src/integrations/hermes.py), against section 9.2.6 of
  the WHATWG HTML Standard. JSON decoding is a parameter, and so is the set of characters that end a line.
  */
module Sse {
  import opened Schema

  // ---- Lines ---------------------------------------------------------------------------------

  /** str.isspace for one character. */
  predicate Blank(c: char) {
    || '\U{0009}' <= c <= '\U{000D}' || '\U{001C}' <= c <= '\U{0020}' || c == '\U{0085}' || c == '\U{00A0}'
    || c == '\U{1680}' || '\U{2000}' <= c <= '\U{200A}' || c == '\U{2028}' || c == '\U{2029}'
    || c == '\U{202F}' || c == '\U{205F}' || c == '\U{3000}'
  }

  /** str.strip */
  function Strip(s: string): (r: string)
    ensures |r| <= |s|
    ensures s != "" && !Blank(s[0]) && !Blank(s[|s| - 1]) ==> r == s
    decreases |s|
  {
    if s == "" then s
    else if Blank(s[0]) then Strip(s[1..])
    else if Blank(s[|s| - 1]) then Strip(s[..|s| - 1])
    else s
  }

  /** "\n".join */
  function Join(lines: seq<string>): string {
    if lines == [] then ""
    else if |lines| == 1 then lines[0]
    else Join(lines[..|lines| - 1]) + "\n" + lines[|lines| - 1]
  }

  // ---- The loop ------------------------------------------------------------------------------

  datatype Raw = Raw(event: string, data: string)
  datatype Parser = Parser(event: string, data: seq<string>, out: seq<Raw>)

  const IDLE := Parser("message", [], [])

  function Step(p: Parser, line: string): Parser {
    if ":" <= line then p
    else if "event:" <= line then p.(event := Strip(line[6..]))
    else if "data:" <= line then p.(data := p.data + [Strip(line[5..])])
    else if line == "" && p.data != [] then Parser("message", [], p.out + [Raw(p.event, Join(p.data))])
    else p
  }

  function Parse(p: Parser, lines: seq<string>): Parser {
    if lines == [] then p else Step(Parse(p, lines[..|lines| - 1]), lines[|lines| - 1])
  }

  datatype Kind = PROGRESS | COMPLETE | FAILURE {
    function Name(): string {
      if PROGRESS? then "progress" else if COMPLETE? then "complete" else "failed"
    }
  }

  datatype Payload = Payload(status: TripStatus, resultId: Option<nat>, errorCode: Option<string>, rest: string)
  datatype Item = Item(kind: Kind, payload: Payload)

  /** json.loads, the object check and the model; None is any of their errors. */
  type Decoder = string -> Option<Payload>

  function KindOf(event: string): Option<Kind> {
    if event == "progress" then Some(PROGRESS)
    else if event == "complete" then Some(COMPLETE)
    else if event == "failed" then Some(FAILURE)
    else None
  }

  /** validate_sse_payload */
  predicate Fits(kind: Kind, p: Payload) {
    match kind
    case PROGRESS => p.status in {PENDING, RUNNING}
    case COMPLETE => p.status == SUCCESS && p.resultId.Some?
    case FAILURE => p.status in {FAILED, TIMEOUT, REJECTED}
  }

  function Validate(raw: Raw, decode: Decoder): Option<Item> {
    var payload, kind := decode(raw.data), KindOf(raw.event);
    if payload.None? || kind.None? || !Fits(kind.value, payload.value) then None
      else Some(Item(kind.value, payload.value))
  }

  /** Items up to the first invalid one, which is an integration error. */
  datatype Streamed = Streamed(items: seq<Item>, ok: bool)

  function Validated(raws: seq<Raw>, decode: Decoder): Streamed {
    if raws == [] then Streamed([], true)
    else
      var before := Validated(raws[..|raws| - 1], decode);
      var item := Validate(raws[|raws| - 1], decode);
      if !before.ok then before
      else if item.None? then Streamed(before.items, false)
      else Streamed(before.items + [item.value], true)
  }

  lemma {:induction false} FailureIsFinal(raws: seq<Raw>, more: seq<Raw>, decode: Decoder)
    requires raws <= more && !Validated(raws, decode).ok
    ensures Validated(more, decode) == Validated(raws, decode)
    decreases |more|
  {
    if raws != more {
      FailureIsFinal(raws, more[..|more| - 1], decode);
    }
  }

  lemma {:induction false} OutputGrows(p: Parser, lines: seq<string>, i: nat)
    requires i <= |lines|
    ensures Parse(p, lines[..i]).out <= Parse(p, lines).out
    decreases |lines| - i
  {
    if i == |lines| {
      assert lines[..i] == lines;
    } else {
      assert lines[..i + 1][..i] == lines[..i];
      OutputGrows(p, lines, i + 1);
    }
  }

  /** stream_job, on the lines that the response yields. */
  method StreamJob(lines: seq<string>, decode: Decoder) returns (items: seq<Item>, ok: bool)
    ensures Streamed(items, ok) == Validated(Parse(IDLE, lines).out, decode)
  {
    var event, dataLines := "message", [];
    items, ok := [], true;
    ghost var out: seq<Raw> := [];
    for i := 0 to |lines|
      invariant ok && Parse(IDLE, lines[..i]) == Parser(event, dataLines, out)
      invariant Streamed(items, true) == Validated(out, decode)
    {
      var line := lines[i];
      assert lines[..i + 1][..i] == lines[..i];
      if ":" <= line {
        continue;
      }
      if "event:" <= line {
        event := Strip(line[6..]);
      } else if "data:" <= line {
        dataLines := dataLines + [Strip(line[5..])];
      } else if line == "" && dataLines != [] {
        var raw := Raw(event, Join(dataLines));
        assert (out + [raw])[..|out|] == out;
        out := out + [raw];
        var item := Validate(raw, decode);
        if item.None? {
          OutputGrows(IDLE, lines, i + 1);
          FailureIsFinal(out, Parse(IDLE, lines).out, decode);
          ok := false;
          return;
        }
        items := items + [item.value];
        event := "message";
        dataLines := [];
      }
    }
    assert lines[..|lines|] == lines;
  }

  // ---- Comments ------------------------------------------------------------------------------

  function WithoutComments(lines: seq<string>): seq<string> {
    if lines == [] then []
    else
      WithoutComments(lines[..|lines| - 1]) + if ":" <= lines[|lines| - 1] then [] else [lines[|lines| - 1]]
  }

  /** Comment lines inserted anywhere change nothing. */
  lemma {:induction false} CommentsDoNotMatter(p: Parser, lines: seq<string>)
    ensures Parse(p, WithoutComments(lines)) == Parse(p, lines)
  {
    if lines != [] {
      var front, last := lines[..|lines| - 1], lines[|lines| - 1];
      CommentsDoNotMatter(p, front);
      if !(":" <= last) {
        assert WithoutComments(lines)[..|WithoutComments(lines)| - 1] == WithoutComments(front);
      } else {
        assert WithoutComments(lines) == WithoutComments(front);
      }
    }
  }

  lemma SameWithoutComments(lines: seq<string>, commented: seq<string>)
    requires WithoutComments(lines) == WithoutComments(commented)
    ensures Parse(IDLE, lines) == Parse(IDLE, commented)
  {
    CommentsDoNotMatter(IDLE, lines);
    CommentsDoNotMatter(IDLE, commented);
  }

  // ---- Reading back what the relay prints ----------------------------------------------------

  /** The relay's frame, as text. */
  function Frame(event: string, json: string): string {
    TwoLines("event: " + event, "data: " + json)
  }

  function TwoLines(e: string, d: string): string {
    e + "\n" + d + "\n" + "\n"
  }

  function Print(raws: seq<Raw>): string {
    if raws == [] then "" else Print(raws[..|raws| - 1]) + Frame(raws[|raws| - 1].event, raws[|raws| - 1].data)
  }

  /** Complete lines and the unfinished one, when every break character ends a line. */
  datatype Split = Split(lines: seq<string>, rest: string)

  function Broken(text: string, breaks: set<char>): Split {
    if text == "" then Split([], "")
    else
      var before, c := Broken(text[..|text| - 1], breaks), text[|text| - 1];
      if c in breaks then Split(before.lines + [before.rest], "") else Split(before.lines, before.rest + [c])
  }

  predicate Unbroken(text: string, breaks: set<char>) {
    forall c | c in text :: c !in breaks
  }

  lemma {:induction false} BrokenConcat(a: string, b: string, breaks: set<char>)
    requires Unbroken(b, breaks)
    ensures Broken(a + b, breaks) == Split(Broken(a, breaks).lines, Broken(a, breaks).rest + b)
  {
    if b == "" {
      assert a + b == a;
      assert Broken(a, breaks).rest + b == Broken(a, breaks).rest;
    } else {
      var front, c := b[..|b| - 1], b[|b| - 1];
      BrokenConcat(a, front, breaks);
      assert (a + b)[..|a + b| - 1] == a + front;
      assert Broken(a, breaks).rest + front + [c] == Broken(a, breaks).rest + b;
    }
  }

  lemma EndOfLine(a: string, breaks: set<char>)
    requires '\n' in breaks
    ensures Broken(a + "\n", breaks) == Split(Broken(a, breaks).lines + [Broken(a, breaks).rest], "")
  {
    assert (a + "\n")[..|a|] == a;
  }

  function FrameLines(raw: Raw): seq<string> {
    ["event: " + raw.event, "data: " + raw.data, ""]
  }

  function LinesOf(raws: seq<Raw>): seq<string> {
    if raws == [] then [] else LinesOf(raws[..|raws| - 1]) + FrameLines(raws[|raws| - 1])
  }

  /** A text that fits on one line and that strip leaves alone: an event name, or a JSON object. */
  ghost predicate Plain(text: string, breaks: set<char>) {
    text != "" && !Blank(text[0]) && !Blank(text[|text| - 1]) && Unbroken(text, breaks)
  }

  ghost predicate Ordinary(breaks: set<char>) {
    '\n' in breaks && forall c | c in breaks :: Blank(c) && c != ' '
  }

  lemma FrameBreaks(a: string, raw: Raw, breaks: set<char>)
    requires Ordinary(breaks) && Plain(raw.event, breaks) && Plain(raw.data, breaks) && Broken(a, breaks).rest == ""
    ensures Broken(a + Frame(raw.event, raw.data), breaks) == Split(Broken(a, breaks).lines + FrameLines(raw), "")
  {
    TwoLinesBreak(a, "event: " + raw.event, "data: " + raw.data, breaks);
  }

  lemma TwoLinesBreak(a: string, e: string, d: string, breaks: set<char>)
    requires '\n' in breaks && Unbroken(e, breaks) && Unbroken(d, breaks) && Broken(a, breaks).rest == ""
    ensures Broken(a + TwoLines(e, d), breaks) == Split(Broken(a, breaks).lines + [e, d, ""], "")
  {
    LineBreaks(a, e, breaks);
    LineBreaks(a + e + "\n", d, breaks);
    LineBreaks(a + e + "\n" + d + "\n", "", breaks);
    TwoLinesAppended(a, e, d);
    ThreeAppended(Broken(a, breaks).lines, e, d, "");
  }

  lemma LineBreaks(a: string, e: string, breaks: set<char>)
    requires '\n' in breaks && Unbroken(e, breaks) && Broken(a, breaks).rest == ""
    ensures Broken(a + e + "\n", breaks) == Split(Broken(a, breaks).lines + [e], "")
  {
    BrokenConcat(a, e, breaks);
    EndOfLine(a + e, breaks);
    assert "" + e == e;
  }

  lemma TwoLinesAppended(a: string, e: string, d: string)
    ensures a + TwoLines(e, d) == a + e + "\n" + d + "\n" + "" + "\n"
  {
  }

  lemma ThreeAppended<T>(s: seq<T>, a: T, b: T, c: T)
    ensures s + [a] + [b] + [c] == s + [a, b, c]
  {
  }

  lemma {:induction false} PrintBreaks(raws: seq<Raw>, breaks: set<char>)
    requires Ordinary(breaks) && forall r | r in raws :: Plain(r.event, breaks) && Plain(r.data, breaks)
    ensures Broken(Print(raws), breaks) == Split(LinesOf(raws), "")
  {
    if raws != [] {
      PrintBreaks(raws[..|raws| - 1], breaks);
      assert raws[|raws| - 1] in raws;
      FrameBreaks(Print(raws[..|raws| - 1]), raws[|raws| - 1], breaks);
    }
  }

  lemma StripSpace(text: string)
    requires text != "" && !Blank(text[0]) && !Blank(text[|text| - 1])
    ensures Strip(" " + text) == text
  {
    assert (" " + text)[1..] == text;
  }

  lemma FrameParses(p: Parser, raw: Raw, breaks: set<char>)
    requires p.data == [] && Plain(raw.event, breaks) && Plain(raw.data, breaks)
    ensures Step(Step(Step(p, "event: " + raw.event), "data: " + raw.data), "") == Parser("message", [], p.out + [raw])
  {
    StripSpace(raw.event);
    StripSpace(raw.data);
    assert ("event: " + raw.event)[6..] == " " + raw.event;
    assert ("data: " + raw.data)[5..] == " " + raw.data;
    assert ("event: " + raw.event)[..6] == "event:" && ("data: " + raw.data)[..5] == "data:";
    assert ("event: " + raw.event)[0] == 'e' && ("data: " + raw.data)[0] == 'd';
  }

  lemma ParseThree(p: Parser, lines: seq<string>, a: string, b: string, c: string)
    ensures Parse(p, lines + [a, b, c]) == Step(Step(Step(Parse(p, lines), a), b), c)
  {
    ParseOne(p, lines, a);
    ParseOne(p, lines + [a], b);
    ParseOne(p, lines + [a] + [b], c);
    ThreeAppended(lines, a, b, c);
  }

  lemma ParseOne(p: Parser, lines: seq<string>, a: string)
    ensures Parse(p, lines + [a]) == Step(Parse(p, lines), a)
  {
    assert (lines + [a])[..|lines|] == lines;
  }

  /** The loop recovers every list of events printed in the relay's frame format. */
  lemma {:induction false} PrintedIsRead(raws: seq<Raw>, breaks: set<char>)
    requires Ordinary(breaks) && forall r | r in raws :: Plain(r.event, breaks) && Plain(r.data, breaks)
    ensures Parse(IDLE, Broken(Print(raws), breaks).lines) == Parser("message", [], raws)
  {
    PrintBreaks(raws, breaks);
    if raws != [] {
      var front, last := raws[..|raws| - 1], raws[|raws| - 1];
      PrintedIsRead(front, breaks);
      PrintBreaks(front, breaks);
      assert last in raws;
      ParseThree(IDLE, LinesOf(front), "event: " + last.event, "data: " + last.data, "");
      FrameParses(Parser("message", [], front), last, breaks);
    }
  }

  // ---- Only unbroken payloads survive --------------------------------------------------------

  function Total(lines: seq<string>): nat {
    if lines == [] then 0 else Total(lines[..|lines| - 1]) + |lines[|lines| - 1]|
  }

  /** Characters of the data gathered so far, one separator each. */
  function Gathered(data: seq<string>): nat {
    Total(data) + |data|
  }

  lemma TotalAppends(lines: seq<string>, line: string)
    ensures Total(lines + [line]) == Total(lines) + |line|
  {
    assert (lines + [line])[..|lines|] == lines;
  }

  lemma {:induction false} JoinLength(data: seq<string>)
    requires data != []
    ensures |Join(data)| + 1 == Gathered(data)
  {
    if |data| > 1 {
      JoinLength(data[..|data| - 1]);
    } else {
      assert Total(data[..0]) == 0;
    }
  }

  /** No event carries more than what was gathered before and the lengths of the lines. */
  lemma {:induction false} DataBounded(p: Parser, lines: seq<string>)
    ensures Gathered(Parse(p, lines).data) <= Gathered(p.data) + Total(lines)
    ensures forall r | r in Parse(p, lines).out :: r in p.out || |r.data| + 1 <= Gathered(p.data) + Total(lines)
  {
    if lines != [] {
      var front, last := lines[..|lines| - 1], lines[|lines| - 1];
      DataBounded(p, front);
      var q := Parse(p, front);
      if "data:" <= last {
        TotalAppends(q.data, Strip(last[5..]));
      } else if last == "" && q.data != [] {
        JoinLength(q.data);
      }
    }
  }

  /** Nothing is lost by breaking but the break characters. */
  lemma {:induction false} BrokenLength(text: string, breaks: set<char>)
    ensures Total(Broken(text, breaks).lines) + |Broken(text, breaks).rest| + |Broken(text, breaks).lines| == |text|
    ensures Broken(text, breaks).lines == [] <==> Unbroken(text, breaks)
  {
    if text != "" {
      var front, c := text[..|text| - 1], text[|text| - 1];
      BrokenLength(front, breaks);
      TotalAppends(Broken(front, breaks).lines, Broken(front, breaks).rest);
      assert text == front + [c];
    }
  }

  lemma {:induction false} BrokenFirst(pre: string, text: string, breaks: set<char>)
    requires Unbroken(pre, breaks)
    ensures var d := Broken(pre + text, breaks);
            if d.lines == [] then pre <= d.rest else pre <= d.lines[0]
  {
    if text == "" {
      assert pre + text == pre && "" + pre == pre;
      BrokenConcat("", pre, breaks);
    } else {
      assert (pre + text)[..|pre + text| - 1] == pre + text[..|text| - 1];
      BrokenFirst(pre, text[..|text| - 1], breaks);
    }
  }

  lemma {:induction false} ParseConcat(p: Parser, a: seq<string>, b: seq<string>)
    ensures Parse(p, a + b) == Parse(Parse(p, a), b)
  {
    if b == [] {
      assert a + b == a;
    } else {
      assert (a + b)[..|a + b| - 1] == a + b[..|b| - 1];
      ParseConcat(p, a, b[..|b| - 1]);
    }
  }

  /** The lines of a frame whose data may break. */
  lemma FrameLinesBroken(raw: Raw, breaks: set<char>)
    requires Ordinary(breaks) && Plain(raw.event, breaks)
    ensures var d := Broken("data: " + raw.data, breaks);
            Broken(Frame(raw.event, raw.data), breaks).lines == ["event: " + raw.event] + d.lines + [d.rest] + [""]
  {
    var e := "event: " + raw.event;
    LineBreaks("", e, breaks);
    assert "" + e + "\n" == e + "\n";
    BrokenAfterLine([e], e + "\n", "data: " + raw.data, breaks);
    EndOfLine(e + "\n" + ("data: " + raw.data), breaks);
    EndOfLine(e + "\n" + ("data: " + raw.data) + "\n", breaks);
    assert Frame(raw.event, raw.data) == e + "\n" + ("data: " + raw.data) + "\n" + "\n";
  }

  lemma {:induction false} BrokenAfterLine(lines: seq<string>, a: string, text: string, breaks: set<char>)
    requires Broken(a, breaks) == Split(lines, "")
    ensures Broken(a + text, breaks) == Split(lines + Broken(text, breaks).lines, Broken(text, breaks).rest)
  {
    if text == "" {
      assert a + text == a;
    } else {
      assert (a + text)[..|a + text| - 1] == a + text[..|text| - 1];
      BrokenAfterLine(lines, a, text[..|text| - 1], breaks);
    }
  }

  /** The first data line gives back its text, and the rest cannot make up for a lost character. */
  lemma BrokenDataIsShorter(raw: Raw, breaks: set<char>)
    requires Ordinary(breaks) && Plain(raw.event, breaks) && !Unbroken(raw.data, breaks)
    ensures forall r | r in Parse(IDLE, Broken(Frame(raw.event, raw.data), breaks).lines).out :: |r.data| < |raw.data|
  {
    var d := Broken("data: " + raw.data, breaks);
    FrameLinesBroken(raw, breaks);
    BrokenLength("data: " + raw.data, breaks);
    SomeBreak(raw.data, breaks);
    BrokenFirst("data: ", raw.data, breaks);
    var more := d.lines[1..] + [d.rest] + [""];
    assert ["event: " + raw.event] + d.lines + [d.rest] + [""] == ["event: " + raw.event] + [d.lines[0]] + more;
    ParseOne(IDLE, [], "event: " + raw.event);
    ParseOne(IDLE, ["event: " + raw.event], d.lines[0]);
    ParseConcat(IDLE, ["event: " + raw.event] + [d.lines[0]], more);
    FirstDataLine(raw.event, d.lines[0]);
    DataBounded(Parse(IDLE, ["event: " + raw.event] + [d.lines[0]]), more);
    TotalAppends(d.lines[1..], d.rest);
    TotalAppends(d.lines[1..] + [d.rest], "");
    TotalOfRest(d.lines);
  }

  lemma SomeBreak(data: string, breaks: set<char>)
    requires !Unbroken(data, breaks)
    ensures !Unbroken("data: " + data, breaks)
  {
    var c :| c in data && c in breaks;
    assert c in "data: " + data;
  }

  lemma FirstDataLine(event: string, line: string)
    requires "data: " <= line
    ensures var p := Parse(IDLE, ["event: " + event] + [line]);
            p.out == [] && Gathered(p.data) <= |line| - 5
  {
    var e := "event: " + event;
    ParseOne(IDLE, [], e);
    ParseOne(IDLE, [e], line);
    assert [] + [e] == [e];
    assert e[..6] == "event:" && e[0] == 'e';
    assert line[0] == 'd' && line[..5] == "data:";
    var text := line[6..];
    assert line[5..] == " " + text && (" " + text)[1..] == text;
    assert |Strip(line[5..])| <= |text|;
    TotalAppends([], Strip(line[5..]));
    assert [] + [Strip(line[5..])] == [Strip(line[5..])];
  }

  lemma {:induction false} TotalOfRest(lines: seq<string>)
    requires lines != []
    ensures Total(lines) == |lines[0]| + Total(lines[1..])
  {
    if |lines| > 1 {
      TotalOfRest(lines[..|lines| - 1]);
      assert lines[..|lines| - 1][1..] == lines[1..][..|lines| - 2];
    } else {
      assert lines[..0] == [] && lines[1..] == [];
    }
  }

  /** A printed event is read back if and only if its payload has no character at which lines are split. */
  lemma ReadBackExactly(raw: Raw, breaks: set<char>)
    requires Ordinary(breaks) && Plain(raw.event, breaks)
    requires raw.data != "" && !Blank(raw.data[0]) && !Blank(raw.data[|raw.data| - 1])
    ensures Parse(IDLE, Broken(Frame(raw.event, raw.data), breaks).lines).out == [raw] <==> Unbroken(raw.data, breaks)
  {
    if Unbroken(raw.data, breaks) {
      PrintedIsRead([raw], breaks);
      assert Print([raw]) == Frame(raw.event, raw.data) by {
        assert [raw][..0] == [] && "" + Frame(raw.event, raw.data) == Frame(raw.event, raw.data);
      }
    } else {
      BrokenDataIsShorter(raw, breaks);
    }
  }
}
