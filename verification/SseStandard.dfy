/**
  The line loop against the algorithm of section 9.2.6 of the WHATWG HTML Standard, defined here on its
  own. Ids and reconnection times do not reach an event's name and data and are left out.
  */
module SseStandard {
  import opened Sse

  // ---- The standard --------------------------------------------------------------------------

  /** The buffers of section 9.2.6: the data buffer holds every data value with a line feed after it. */
  datatype Standard = Standard(eventType: string, data: string, out: seq<Raw>)

  const FRESH := Standard("", "", [])

  /** The position of the first colon; the length of the line when there is none. */
  function Colon(line: string): (k: nat)
    ensures k <= |line| && (k < |line| ==> line[k] == ':') && forall i | 0 <= i < k :: line[i] != ':'
  {
    if line == "" || line[0] == ':' then 0 else 1 + Colon(line[1..])
  }

  function FieldName(line: string): string { line[..Colon(line)] }

  /** What follows the colon, without one leading space; empty when there is no colon. */
  function FieldValue(line: string): string {
    var rest := line[Colon(line)..];
    if |rest| >= 2 && rest[1] == ' ' then rest[2..] else if rest != "" then rest[1..] else ""
  }

  /** "message" unless the event type buffer says otherwise. */
  function TypeOf(eventType: string): string {
    if eventType == "" then "message" else eventType
  }

  function Dispatch(q: Standard): Standard {
    if q.data == "" then Standard("", "", q.out)
    else
      var data := if q.data[|q.data| - 1] == '\n' then q.data[..|q.data| - 1] else q.data;
      Standard("", "", q.out + [Raw(TypeOf(q.eventType), data)])
  }

  function StandardStep(q: Standard, line: string): Standard {
    if line == "" then Dispatch(q)
    else if line[0] == ':' then q
    else if FieldName(line) == "event" then q.(eventType := FieldValue(line))
    else if FieldName(line) == "data" then q.(data := q.data + FieldValue(line) + "\n")
    else q
  }

  function StandardParse(q: Standard, lines: seq<string>): Standard {
    if lines == [] then q else StandardStep(StandardParse(q, lines[..|lines| - 1]), lines[|lines| - 1])
  }

  // ---- Where the loop agrees with it ---------------------------------------------------------

  /** The data buffer that stands for the loop's data lines. */
  function Buffer(data: seq<string>): string {
    if data == [] then "" else Buffer(data[..|data| - 1]) + data[|data| - 1] + "\n"
  }

  /** The loop and the standard are in the same state. */
  predicate Same(p: Parser, q: Standard) {
    p.out == q.out && p.event == TypeOf(q.eventType) && Buffer(p.data) == q.data
  }

  predicate Tight(value: string) {
    value == "" || (!Blank(value[0]) && !Blank(value[|value| - 1]))
  }

  /**
    A line that the loop reads as the standard does: values have no blanks around them but the one after
    the colon, event names are not empty, data lines have their colon, and no blank line or bare event
    field finds an event name that it would have to drop.
    */
  predicate Conforms(p: Parser, line: string) {
    if line == "" then p.data != [] || p.event == "message"
    else if line == "event" then p.event == "message"
    else if line == "data" then false
    else if FieldName(line) == "event" then FieldValue(line) != "" && Tight(FieldValue(line))
    else if FieldName(line) == "data" then Tight(FieldValue(line))
    else true
  }

  lemma FirstColon(line: string, name: string)
    requires ':' !in name
    ensures name + ":" <= line <==> FieldName(line) == name && |name| < |line| && line[|name|] == ':'
  {
    if name + ":" <= line {
      assert line[|name|] == (name + ":")[|name|];
      forall i | 0 <= i < |name|
        ensures line[i] != ':'
      {
        assert line[i] == (name + ":")[i] == name[i];
      }
      assert Colon(line) == |name|;
    }
  }

  /** A field without a colon is its name alone. */
  lemma WholeLine(line: string, name: string)
    requires FieldName(line) == name && !(|name| < |line| && line[|name|] == ':')
    ensures line == name
  {
  }

  lemma {:induction false} StripOutside(v: string)
    ensures Strip(v) == v <==> Tight(v)
    ensures Strip(v) == "" || !Blank(Strip(v)[0])
    decreases |v|
  {
    if v != "" && Blank(v[0]) {
      StripOutside(v[1..]);
    } else if v != "" && Blank(v[|v| - 1]) {
      StripOutside(v[..|v| - 1]);
    }
  }

  /** What the loop strips is what the standard takes, except for further blanks. */
  lemma StripsValue(line: string, n: nat)
    requires Colon(line) == n < |line|
    ensures Strip(line[n + 1..]) == FieldValue(line) <==> Tight(FieldValue(line))
  {
    var rest := line[n + 1..];
    StripOutside(FieldValue(line));
    assert line[n..][1..] == rest;
    if rest != "" && rest[0] == ' ' {
      assert line[n..][2..] == rest[1..];
      assert Strip(rest) == Strip(rest[1..]);
    } else {
      assert FieldValue(line) == rest;
    }
  }

  lemma AppendedDiffer(a: string, b: string, c: string)
    ensures a + b + "\n" == a + c + "\n" <==> b == c
  {
    if a + b + "\n" == a + c + "\n" {
      assert (a + b + "\n")[|a|..|a| + |b|] == b;
      assert (a + c + "\n")[|a|..|a| + |c|] == c;
    }
  }

  lemma {:induction false} BufferIsJoin(data: seq<string>)
    requires data != []
    ensures Buffer(data) == Join(data) + "\n"
  {
    if |data| > 1 {
      BufferIsJoin(data[..|data| - 1]);
    } else {
      assert Buffer(data[..0]) == "" && "" + data[0] == data[0];
    }
  }

  lemma BufferAppends(data: seq<string>, line: string)
    ensures Buffer(data + [line]) == Buffer(data) + line + "\n"
  {
    assert (data + [line])[..|data|] == data;
  }

  lemma BlankLine(p: Parser, q: Standard)
    requires Same(p, q)
    ensures Same(Step(p, ""), StandardStep(q, "")) <==> Conforms(p, "")
    ensures p.data == [] ==> Step(p, "").out == StandardStep(q, "").out
  {
    if p.data != [] {
      BufferIsJoin(p.data);
      assert q.data[..|q.data| - 1] == Join(p.data);
    }
  }

  lemma EventLine(p: Parser, q: Standard, line: string)
    requires Same(p, q) && FieldName(line) == "event"
    ensures Same(Step(p, line), StandardStep(q, line)) <==> Conforms(p, line)
    ensures Step(p, line).out == StandardStep(q, line).out
  {
    FirstColon(line, "event");
    if "event:" <= line {
      StripsValue(line, 5);
      if FieldValue(line) == "" {
        assert |Strip(line[6..])| <= 1;
      }
    } else {
      WholeLine(line, "event");
    }
  }

  lemma DataLine(p: Parser, q: Standard, line: string)
    requires Same(p, q) && FieldName(line) == "data"
    ensures Same(Step(p, line), StandardStep(q, line)) <==> Conforms(p, line)
    ensures Step(p, line).out == StandardStep(q, line).out
  {
    FirstColon(line, "data");
    if "data:" <= line {
      StripsValue(line, 4);
      BufferAppends(p.data, Strip(line[5..]));
      AppendedDiffer(q.data, Strip(line[5..]), FieldValue(line));
    } else {
      WholeLine(line, "data");
      assert |q.data + FieldValue(line) + "\n"| > |q.data|;
    }
  }

  lemma OtherLine(p: Parser, q: Standard, line: string)
    requires Same(p, q) && line != "" && FieldName(line) != "event" && FieldName(line) != "data"
    ensures Step(p, line) == p && StandardStep(q, line) == q && Conforms(p, line)
  {
    FirstColon(line, "event");
    FirstColon(line, "data");
    assert !("event:" <= line) && !("data:" <= line);
    assert FieldName("event") == "event" && FieldName("data") == "data" by {
      FirstColon("event", "event");
      FirstColon("data", "data");
      NoColon("event");
      NoColon("data");
    }
  }

  lemma NoColon(line: string)
    requires ':' !in line
    ensures FieldName(line) == line
  {
  }

  /** From one state, the loop and the standard take the same step if and only if the line conforms. */
  lemma SameStepExactly(p: Parser, q: Standard, line: string)
    requires Same(p, q)
    ensures Same(Step(p, line), StandardStep(q, line)) <==> Conforms(p, line)
    ensures !Conforms(p, line) ==> Step(p, line).out == StandardStep(q, line).out
  {
    if line == "" {
      BlankLine(p, q);
    } else if FieldName(line) == "event" {
      EventLine(p, q, line);
    } else if FieldName(line) == "data" {
      DataLine(p, q, line);
    } else {
      OtherLine(p, q, line);
    }
  }

  /** Two lines that bring any difference of state to light. */
  const PROBE := ["data: x", ""]

  /** What is read up to here has the same effect, now and on what follows. */
  predicate Agrees(lines: seq<string>) {
    Parse(IDLE, lines + PROBE).out == StandardParse(FRESH, lines + PROBE).out
  }

  lemma DataX(p: Parser, q: Standard)
    ensures Step(p, "data: x") == p.(data := p.data + ["x"])
    ensures StandardStep(q, "data: x") == q.(data := q.data + "x" + "\n")
  {
    assert "data: x" == "data: " + "x";
    StripSpace("x");
    DataOf(p, q, "x", "x");
  }

  /** A data line with one blank after its colon, as the standard and the loop read it. */
  lemma DataOf(p: Parser, q: Standard, value: string, stripped: string)
    requires Strip(" " + value) == stripped
    ensures Step(p, "data: " + value) == p.(data := p.data + [stripped])
    ensures StandardStep(q, "data: " + value) == q.(data := q.data + value + "\n")
  {
    DataParts("data: " + value, value);
  }

  lemma DataParts(line: string, value: string)
    requires line == "data: " + value
    ensures line != "" && line[0] == 'd' && "data:" <= line && line[5..] == " " + value
    ensures FieldName(line) == "data" && FieldValue(line) == value
  {
    assert line[..5] == "data:" && line[5..] == " " + value;
    FirstColon(line, "data");
    assert line[4..] == ": " + value;
  }

  lemma ProbeSteps(p: Parser, q: Standard)
    ensures Step(Step(p, "data: x"), "") == Parser("message", [], p.out + [Raw(p.event, Join(p.data + ["x"]))])
    ensures StandardStep(StandardStep(q, "data: x"), "")
            == Standard("", "", q.out + [Raw(TypeOf(q.eventType), q.data + "x")])
  {
    DataX(p, q);
    assert (q.data + "x" + "\n")[..|q.data| + 1] == q.data + "x";
  }

  lemma {:induction false} StandardParseOne(q: Standard, lines: seq<string>, line: string)
    ensures StandardParse(q, lines + [line]) == StandardStep(StandardParse(q, lines), line)
  {
    assert (lines + [line])[..|lines|] == lines;
  }

  lemma ProbeShows(lines: seq<string>)
    requires Parse(IDLE, lines).out == StandardParse(FRESH, lines).out
    ensures Agrees(lines) <==> Same(Parse(IDLE, lines), StandardParse(FRESH, lines))
  {
    var p, q := Parse(IDLE, lines), StandardParse(FRESH, lines);
    assert lines + PROBE == lines + ["data: x"] + [""];
    ParseOne(IDLE, lines, "data: x");
    ParseOne(IDLE, lines + ["data: x"], "");
    StandardParseOne(FRESH, lines, "data: x");
    StandardParseOne(FRESH, lines + ["data: x"], "");
    ProbeSteps(p, q);
    JoinedWithX(p.data);
    SuffixesDiffer(Buffer(p.data), q.data, "x");
    LastEqual(p.out, q.out, Raw(p.event, Buffer(p.data) + "x"), Raw(TypeOf(q.eventType), q.data + "x"));
  }

  lemma JoinedWithX(data: seq<string>)
    ensures Join(data + ["x"]) == Buffer(data) + "x"
  {
    BufferIsJoin(data + ["x"]);
    BufferAppends(data, "x");
    assert (Join(data + ["x"]) + "\n")[..|Join(data + ["x"])|] == Join(data + ["x"]);
    assert (Buffer(data) + "x" + "\n")[..|Buffer(data)| + 1] == Buffer(data) + "x";
  }

  lemma LastEqual(a: seq<Raw>, b: seq<Raw>, x: Raw, y: Raw)
    requires a == b
    ensures a + [x] == b + [y] <==> x == y
  {
    if a + [x] == b + [y] {
      assert (a + [x])[|a|] == x && (b + [y])[|b|] == y;
    }
  }

  lemma SuffixesDiffer(a: string, b: string, c: string)
    ensures a + c == b + c <==> a == b
  {
    if a + c == b + c {
      assert |a| == |b| && (a + c)[..|a|] == a && (b + c)[..|b|] == b;
    }
  }

  /** The lines up to each position conform. */
  ghost predicate AllConform(lines: seq<string>) {
    forall i | 0 <= i < |lines| :: Conforms(Parse(IDLE, lines[..i]), lines[i])
  }

  ghost predicate AlwaysAgrees(lines: seq<string>) {
    forall i | 0 <= i <= |lines| :: Agrees(lines[..i])
  }

  lemma {:induction false} ConformingIsSame(lines: seq<string>)
    requires AllConform(lines)
    ensures Same(Parse(IDLE, lines), StandardParse(FRESH, lines))
  {
    if lines != [] {
      var front := lines[..|lines| - 1];
      ConformingPrefix(lines);
      ConformingIsSame(front);
      assert Conforms(Parse(IDLE, lines[..|lines| - 1]), lines[|lines| - 1]);
      SameStepExactly(Parse(IDLE, front), StandardParse(FRESH, front), lines[|lines| - 1]);
    }
  }

  lemma ConformingPrefix(lines: seq<string>)
    requires lines != []
    ensures AllConform(lines) <==>
              AllConform(lines[..|lines| - 1]) && Conforms(Parse(IDLE, lines[..|lines| - 1]), lines[|lines| - 1])
  {
    SamePrefixes(lines);
  }

  lemma AgreeingPrefix(lines: seq<string>)
    requires lines != []
    ensures AlwaysAgrees(lines) <==> AlwaysAgrees(lines[..|lines| - 1]) && Agrees(lines)
  {
    OnePrefixMore(lines, (l: seq<string>) => Agrees(l));
  }

  predicate HoldsThroughout<T>(s: seq<T>, holds: seq<T> -> bool) {
    forall i | 0 <= i <= |s| :: holds(s[..i])
  }

  /** What holds of all prefixes holds of the shorter ones and of the whole. */
  lemma OnePrefixMore<T>(s: seq<T>, holds: seq<T> -> bool)
    requires s != []
    ensures HoldsThroughout(s, holds) <==> HoldsThroughout(s[..|s| - 1], holds) && holds(s)
  {
    var front := s[..|s| - 1];
    assert s[..|s|] == s;
    forall i | 0 <= i <= |front|
      ensures front[..i] == s[..i] && holds(front[..i]) == holds(s[..i])
    {
    }
  }

  lemma SamePrefixes(lines: seq<string>)
    requires lines != []
    ensures forall i | 0 <= i < |lines| :: lines[..|lines| - 1][..i] == lines[..i]
  {
  }

  /**
    The loop reads a stream as the standard does, wherever it is cut off and continued, if and only if every
    line conforms.
    */
  lemma {:induction false} SameEventsExactly(lines: seq<string>)
    ensures AlwaysAgrees(lines) <==> AllConform(lines)
  {
    if lines == [] {
      ProbeShows([]);
      assert lines[..0] == [];
    } else {
      var front, last := lines[..|lines| - 1], lines[|lines| - 1];
      SameEventsExactly(front);
      ConformingPrefix(lines);
      AgreeingPrefix(lines);
      if AllConform(front) {
        ConformingIsSame(front);
        SameStepExactly(Parse(IDLE, front), StandardParse(FRESH, front), last);
        ProbeShows(lines);
      }
    }
  }

  /** So every browser reads the relay's own frames as they were meant. */
  lemma FramesAreStandard(raws: seq<Raw>, breaks: set<char>)
    requires Ordinary(breaks) && forall r | r in raws :: Plain(r.event, breaks) && Plain(r.data, breaks)
    ensures StandardParse(FRESH, Broken(Print(raws), breaks).lines) == Standard("", "", raws)
  {
    PrintBreaks(raws, breaks);
    LinesAreStandard(raws);
  }

  lemma {:induction false} LinesAreStandard(raws: seq<Raw>)
    requires forall r | r in raws :: r.event != "" && r.data != ""
    ensures StandardParse(FRESH, LinesOf(raws)) == Standard("", "", raws)
  {
    if raws != [] {
      var front, last := raws[..|raws| - 1], raws[|raws| - 1];
      assert last in raws;
      LinesAreStandard(front);
      FrameFollows(LinesOf(front), front, last);
    }
  }

  lemma FrameFollows(lines: seq<string>, out: seq<Raw>, raw: Raw)
    requires StandardParse(FRESH, lines) == Standard("", "", out) && raw.event != "" && raw.data != ""
    ensures StandardParse(FRESH, lines + FrameLines(raw)) == Standard("", "", out + [raw])
  {
    var e, d := "event: " + raw.event, "data: " + raw.data;
    StandardParseOne(FRESH, lines, e);
    StandardParseOne(FRESH, lines + [e], d);
    StandardParseOne(FRESH, lines + [e] + [d], "");
    ThreeAppended(lines, e, d, "");
    FrameIsStandard(out, raw);
  }

  lemma FrameIsStandard(out: seq<Raw>, raw: Raw)
    requires raw.event != "" && raw.data != ""
    ensures StandardStep(StandardStep(StandardStep(Standard("", "", out), "event: " + raw.event),
              "data: " + raw.data), "")
         == Standard("", "", out + [raw])
  {
    var e, d := "event: " + raw.event, "data: " + raw.data;
    assert e[..6] == "event" + ":" && d[..5] == "data" + ":" && e[0] == 'e' && d[0] == 'd';
    FirstColon(e, "event");
    FirstColon(d, "data");
    assert e[5..] == ": " + raw.event && d[4..] == ": " + raw.data;
    assert FieldValue(e) == raw.event && FieldValue(d) == raw.data;
    assert (raw.data + "\n")[..|raw.data|] == raw.data && "" + raw.data == raw.data;
  }

  // ---- One input for each way to differ ------------------------------------------------------

  /** What the loop and the standard make of a list of lines. */
  function Read(lines: seq<string>): seq<Raw> { Parse(IDLE, lines).out }
  function ReadStandard(lines: seq<string>): seq<Raw> { StandardParse(FRESH, lines).out }

  /** A second leading blank belongs to the value; the loop strips it. */
  lemma SecondBlankIsStripped()
    ensures Read(["data:  x", ""]) == [Raw("message", "x")] && ReadStandard(["data:  x", ""]) == [Raw("message", " x")]
  {
    Reading2("data:  x", "");
    TwoBlanks();
    assert " x\n"[..2] == " x";
  }

  lemma TwoBlanks()
    ensures Step(IDLE, "data:  x") == IDLE.(data := ["x"]) && StandardStep(FRESH, "data:  x") == FRESH.(data := " x\n")
  {
    assert "data:  x" == "data: " + " x";
    StripSpace("x");
    assert (" " + " x")[1..] == " " + "x";
    DataOf(IDLE, FRESH, " x", "x");
    assert IDLE.data + ["x"] == ["x"];
  }

  /** A data field without a colon is an empty line of data; the loop ignores it. */
  lemma BareDataIsIgnored()
    ensures Read(["data: x", "data", ""]) == [Raw("message", "x")]
            && ReadStandard(["data: x", "data", ""]) == [Raw("message", "x\n")]
  {
    Reading3("data: x", "data", "");
    DataX(IDLE, FRESH);
    NoColon("data");
    var q := StandardStep(FRESH, "data: x");
    assert q.data == "x\n" && FieldValue("data") == "";
    assert StandardStep(q, "data").data == "x\n\n" && "x\n\n"[..2] == "x\n";
    assert Step(Step(IDLE, "data: x"), "data") == Step(IDLE, "data: x") && IDLE.data + ["x"] == ["x"];
  }

  /** An empty event name means the default; the loop keeps the empty name. */
  lemma EmptyNameIsKept()
    ensures Read(["event:", "data: x", ""]) == [Raw("", "x")]
            && ReadStandard(["event:", "data: x", ""]) == [Raw("message", "x")]
  {
    Reading3("event:", "data: x", "");
    EmptyName();
    ReadsX(IDLE.(event := ""), FRESH);
  }

  lemma EmptyName()
    ensures Step(IDLE, "event:") == IDLE.(event := "") && StandardStep(FRESH, "event:") == FRESH
  {
    var line := "event:";
    assert line[..6] == "event" + ":" && line[6..] == "" && line[0] == 'e';
    FirstColon(line, "event");
    assert line[5..] == ":" && FieldValue(line) == "";
  }

  /** A blank line without data drops the name; the loop keeps it for the data that follows. */
  lemma NameOutlivesBlankLine(event: string, breaks: set<char>)
    requires Plain(event, breaks)
    ensures Read(["event: " + event, "", "data: x", ""]) == [Raw(event, "x")]
    ensures ReadStandard(["event: " + event, "", "data: x", ""]) == [Raw("message", "x")]
  {
    Reading4("event: " + event, "", "data: x", "");
    NamedEvent(event, breaks);
    assert Step(IDLE.(event := event), "") == IDLE.(event := event)
      && StandardStep(FRESH.(eventType := event), "") == FRESH;
    ReadsX(IDLE.(event := event), FRESH);
  }

  /** So does an event field without a colon. */
  lemma NameOutlivesBareField(event: string, breaks: set<char>)
    requires Plain(event, breaks)
    ensures Read(["event: " + event, "event", "data: x", ""]) == [Raw(event, "x")]
    ensures ReadStandard(["event: " + event, "event", "data: x", ""]) == [Raw("message", "x")]
  {
    Reading4("event: " + event, "event", "data: x", "");
    NamedEvent(event, breaks);
    BareEvent(event);
    ReadsX(IDLE.(event := event), FRESH);
  }

  lemma BareEvent(event: string)
    ensures Step(IDLE.(event := event), "event") == IDLE.(event := event)
            && StandardStep(FRESH.(eventType := event), "event") == FRESH
  {
    NoColon("event");
    assert FieldValue("event") == "";
  }

  /** Data and the blank line after it, read from states without data. */
  lemma ReadsX(p: Parser, q: Standard)
    requires p.data == [] && q.data == "" && p.out == [] && q.out == []
    ensures Step(Step(p, "data: x"), "").out == [Raw(p.event, "x")]
    ensures StandardStep(StandardStep(q, "data: x"), "").out == [Raw(TypeOf(q.eventType), "x")]
  {
    ProbeSteps(p, q);
    assert [] + ["x"] == ["x"] && "" + "x" == "x";
  }

  lemma NamedEvent(event: string, breaks: set<char>)
    requires Plain(event, breaks)
    ensures Step(IDLE, "event: " + event) == IDLE.(event := event)
    ensures StandardStep(FRESH, "event: " + event) == FRESH.(eventType := event)
  {
    var e := "event: " + event;
    StripSpace(event);
    assert e[..6] == "event" + ":" && e[6..] == " " + event && e[0] == 'e';
    FirstColon(e, "event");
    assert e[5..] == ": " + event && FieldValue(e) == event;
  }

  lemma Reading2(a: string, b: string)
    ensures Read([a, b]) == Step(Step(IDLE, a), b).out
            && ReadStandard([a, b]) == StandardStep(StandardStep(FRESH, a), b).out
  {
    ParseOne(IDLE, [], a);
    ParseOne(IDLE, [a], b);
    StandardParseOne(FRESH, [], a);
    StandardParseOne(FRESH, [a], b);
    assert [] + [a] == [a] && [a] + [b] == [a, b];
  }

  lemma Reading3(a: string, b: string, c: string)
    ensures Read([a, b, c]) == Step(Step(Step(IDLE, a), b), c).out
    ensures ReadStandard([a, b, c]) == StandardStep(StandardStep(StandardStep(FRESH, a), b), c).out
  {
    ParseThree(IDLE, [], a, b, c);
    StandardParseOne(FRESH, [], a);
    StandardParseOne(FRESH, [a], b);
    StandardParseOne(FRESH, [a, b], c);
    assert [] + [a] == [a] && [a] + [b] == [a, b] && [a, b] + [c] == [a, b, c] && [] + [a, b, c] == [a, b, c];
  }

  lemma Reading4(a: string, b: string, c: string, d: string)
    ensures Read([a, b, c, d]) == Step(Step(Step(Step(IDLE, a), b), c), d).out
    ensures ReadStandard([a, b, c, d]) == StandardStep(StandardStep(StandardStep(StandardStep(FRESH, a), b), c), d).out
  {
    ParseThree(IDLE, [a], b, c, d);
    ParseOne(IDLE, [], a);
    StandardParseOne(FRESH, [], a);
    StandardParseOne(FRESH, [a], b);
    StandardParseOne(FRESH, [a, b], c);
    StandardParseOne(FRESH, [a, b, c], d);
    assert [] + [a] == [a] && [a] + [b] == [a, b] && [a, b] + [c] == [a, b, c] && [a, b, c] + [d] == [a, b, c, d];
    assert [a] + [b, c, d] == [a, b, c, d];
  }
}
