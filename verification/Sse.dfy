/**
 The server-sent event reader of internal/aiqa/stream_reader.go and the frames it reads back.
 The reader follows sections 9.2.5 and 9.2.6 of the WHATWG HTML Living Standard except where the
 code differs: a pending event is dispatched at the end of input, and a lone CR ends no line.
 Text is a sequence of bytes.
 */
module Sse {

  const MAX_EVENT_BYTES: nat := 16384

  datatype Event = Event(name: string, data: string)

  /** The fields of the event being read. */
  datatype Frame = Frame(name: string, data: seq<string>, hasData: bool, size: nat)

  const START := Frame("", [], false, 0)

  datatype Outcome = Outcome(events: seq<Event>, ok: bool) {
    function After(first: seq<Event>): Outcome {
      Outcome(first + events, ok)
    }
  }

  const TOO_LARGE := Outcome([], false)

  /** Position of the first c, or |s|. */
  function Find(s: string, c: char): (n: nat)
    ensures n <= |s|
    ensures forall i :: 0 <= i < n ==> s[i] != c
    ensures n < |s| ==> s[n] == c
  {
    if s == [] || s[0] == c then 0 else 1 + Find(s[1..], c)
  }

  function TrimSuffix(s: string, c: char): string {
    if s != [] && s[|s| - 1] == c then s[..|s| - 1] else s
  }

  function Join(lines: seq<string>): string {
    if |lines| == 0 then ""
    else if |lines| == 1 then lines[0]
    else Join(lines[..|lines| - 1]) + "\n" + lines[|lines| - 1]
  }

  function Dispatch(f: Frame): seq<Event> {
    if f.hasData then [Event(f.name, Join(f.data))] else []
  }

  function FieldOf(line: string): string {
    line[..Find(line, ':')]
  }

  /** What follows the first colon, without one leading space; nothing if there is no colon. */
  function ValueOf(line: string): string {
    var n := Find(line, ':');
    if n == |line| then ""
    else if n + 1 < |line| && line[n + 1] == ' ' then line[n + 2..]
    else line[n + 1..]
  }

  /** The effect of one field line. */
  function Absorb(f: Frame, line: string): Frame {
    var value := ValueOf(line);
    if FieldOf(line) == "event" then f.(name := value, size := f.size + |value|)
    else if FieldOf(line) == "data" then f.(data := f.data + [value], hasData := true, size := f.size + |value|)
    else f
  }

  /** What reading `input` produces when the event so far is f. */
  function Read(input: string, f: Frame): Outcome
    decreases |input|
  {
    var n := Find(input, '\n');
    var atEnd := n == |input|;
    if (if atEnd then n else n + 1) > MAX_EVENT_BYTES + 1 then TOO_LARGE
    else
      var line := TrimSuffix(input[..n], '\r');
      if line == "" then
        if atEnd then Outcome(Dispatch(f), true) else Read(input[n + 1..], START).After(Dispatch(f))
      else if line[0] == ':' then
        if atEnd then Read("", f) else Read(input[n + 1..], f)
      else
        var f' := Absorb(f, line);
        if f'.size > MAX_EVENT_BYTES then TOO_LARGE
        else if atEnd then Outcome(Dispatch(f'), true)
        else Read(input[n + 1..], f')
  }

  /** readSSE: the loop over lines, with every event handed over in order. */
  method ReadSse(input: string) returns (events: seq<Event>, ok: bool)
    ensures Outcome(events, ok) == Read(input, START)
  {
    var rest, f := input, START;
    events := [];
    while true
      invariant Read(input, START) == Read(rest, f).After(events)
      decreases |rest|
    {
      var n := Find(rest, '\n');
      var atEnd := n == |rest|;
      if (if atEnd then n else n + 1) > MAX_EVENT_BYTES + 1 {
        return events, false;
      }
      var line := TrimSuffix(rest[..n], '\r');
      if line == "" {
        AfterTwice(events, Dispatch(f), if atEnd then Outcome([], true) else Read(rest[n + 1..], START));
        events := events + Dispatch(f);
        f := START;
        if atEnd {
          return events, true;
        }
      } else if line[0] != ':' {
        f := Absorb(f, line);
        if f.size > MAX_EVENT_BYTES {
          return events, false;
        }
        if atEnd {
          return events + Dispatch(f), true;
        }
      }
      rest := if atEnd then "" else rest[n + 1..];
    }
  }

  lemma {:induction false} AfterTwice(a: seq<Event>, b: seq<Event>, o: Outcome)
    ensures o.After(b).After(a) == o.After(a + b)
  {
    assert a + (b + o.events) == (a + b) + o.events;
  }

  // ---------------------------------------------------------------- printing

  /** One field of a printed frame; noise is a comment or a field the reader does not know. */
  datatype Field = Name(value: string) | Data(value: string) | Noise(text: string)

  /** What stands between a field's name and its value; nothing at all only before an empty value. */
  datatype Separator = Spaced | Tight | Bare

  /** A field as it is written, ended by LF or by CR LF. */
  datatype Line = Line(field: Field, separator: Separator, crlf: bool)

  function Separate(s: Separator): string {
    match s
    case Spaced => ": "
    case Tight => ":"
    case Bare => ""
  }

  function TextOf(line: Line): string {
    match line.field
    case Name(v) => "event" + Separate(line.separator) + v
    case Data(v) => "data" + Separate(line.separator) + v
    case Noise(t) => t
  }

  function Ending(crlf: bool): string {
    if crlf then "\r\n" else "\n"
  }

  /** The value is read as it was written: a space or a missing colon would change it. */
  predicate Unambiguous(v: string, s: Separator) {
    match s
    case Spaced => true
    case Tight => v == "" || v[0] != ' '
    case Bare => v == ""
  }

  /** The line survives the trip: one line on the wire, within the limit, and noise really is noise. */
  predicate Printable(line: Line) {
    var t := TextOf(line);
    && t != "" && '\n' !in t && (!line.crlf ==> t[|t| - 1] != '\r')
    && |t| + |Ending(line.crlf)| <= 16385
    && match line.field
       case Name(v) => Unambiguous(v, line.separator)
       case Data(v) => Unambiguous(v, line.separator)
       case Noise(_) => t[0] == ':' || (FieldOf(t) != "event" && FieldOf(t) != "data")
  }

  function Added(f: Frame, field: Field): Frame {
    match field
    case Name(v) => f.(name := v, size := f.size + |v|)
    case Data(v) => f.(data := f.data + [v], hasData := true, size := f.size + |v|)
    case Noise(_) => f
  }

  /** The event a block of lines stands for. */
  function Meaning(lines: seq<Line>, n: nat): Frame
    requires n <= |lines|
  {
    if n == 0 then START else Added(Meaning(lines, n - 1), lines[n - 1].field)
  }

  predicate PrintableLines(lines: seq<Line>) {
    && (forall i :: 0 <= i < |lines| ==> Printable(lines[i]))
    && Meaning(lines, |lines|).size <= 16384
  }

  /** The lines from the i-th on, and what follows them. */
  function PrintLines(lines: seq<Line>, i: nat, rest: string): string
    requires i <= |lines|
    decreases |lines| - i
  {
    if i == |lines| then rest else TextOf(lines[i]) + Ending(lines[i].crlf) + PrintLines(lines, i + 1, rest)
  }

  /** A block: its lines, then the blank line that dispatches it. */
  datatype Block = Block(lines: seq<Line>, crlf: bool)

  function PrintAll(blocks: seq<Block>, rest: string): string {
    if blocks == [] then rest
    else PrintLines(blocks[0].lines, 0, Ending(blocks[0].crlf) + PrintAll(blocks[1..], rest))
  }

  ghost predicate PrintableBlocks(blocks: seq<Block>) {
    forall i :: 0 <= i < |blocks| ==> PrintableLines(blocks[i].lines)
  }

  function Events(blocks: seq<Block>): seq<Event> {
    if blocks == [] then []
    else Dispatch(Meaning(blocks[0].lines, |blocks[0].lines|)) + Events(blocks[1..])
  }

  lemma {:induction false} FindFirst(s: string, c: char, n: nat)
    requires n <= |s| && (forall i :: 0 <= i < n ==> s[i] != c) && (n < |s| ==> s[n] == c)
    ensures Find(s, c) == n
  {
  }

  /** A field's name and value, written with any separator, are read back. */
  lemma {:induction false} FieldRead(key: string, v: string, s: Separator)
    requires key != "" && (forall i :: 0 <= i < |key| ==> key[i] != ':') && Unambiguous(v, s)
    ensures FieldOf(key + Separate(s) + v) == key && ValueOf(key + Separate(s) + v) == v
  {
    var t := key + Separate(s) + v;
    FindFirst(t, ':', |key|);
    assert t[..|key|] == key;
    match s
    case Spaced => assert t[|key| + 2..] == v;
    case Tight => assert t[|key| + 1..] == v;
    case Bare =>
  }

  /** A printed line is read as the change it stands for. */
  lemma {:induction false} AbsorbPrinted(f: Frame, line: Line)
    requires Printable(line) && TextOf(line)[0] != ':'
    ensures Absorb(f, TextOf(line)) == Added(f, line.field)
  {
    match line.field
    case Name(v) => FieldRead("event", v, line.separator);
    case Data(v) => FieldRead("data", v, line.separator);
    case Noise(_) =>
  }

  lemma {:induction false} CommentIsNoise(line: Line)
    requires Printable(line) && TextOf(line)[0] == ':'
    ensures line.field.Noise?
  {
  }

  /** A line ends where it was ended, in either way. */
  lemma {:induction false} LineRead(t: string, crlf: bool, rest: string)
    requires '\n' !in t && (!crlf ==> t == "" || t[|t| - 1] != '\r')
    ensures
      var input := t + Ending(crlf) + rest;
      var n := Find(input, '\n');
      n < |input| && TrimSuffix(input[..n], '\r') == t && input[n + 1..] == rest && n + 1 == |t| + |Ending(crlf)|
  {
    var input := t + Ending(crlf) + rest;
    var n := |t| + |Ending(crlf)| - 1;
    FindFirst(input, '\n', n);
    assert input[..n] == if crlf then t + "\r" else t;
    assert crlf ==> (t + "\r")[..|t|] == t;
    assert input[n + 1..] == rest;
  }

  lemma {:induction false} ReadLine(line: Line, rest: string, f: Frame)
    requires Printable(line) && f.size <= 16384
    ensures Read(TextOf(line) + Ending(line.crlf) + rest, f)
         == if Added(f, line.field).size <= 16384 then Read(rest, Added(f, line.field)) else TOO_LARGE
  {
    LineRead(TextOf(line), line.crlf, rest);
    if TextOf(line)[0] == ':' {
      CommentIsNoise(line);
    } else {
      AbsorbPrinted(f, line);
    }
  }

  lemma {:induction false} SizesGrow(lines: seq<Line>, i: nat, n: nat)
    requires i <= n <= |lines|
    ensures Meaning(lines, i).size <= Meaning(lines, n).size
    decreases n
  {
    if i < n {
      SizesGrow(lines, i, n - 1);
    }
  }

  lemma {:induction false} ReadOneLine(lines: seq<Line>, i: nat, rest: string)
    requires PrintableLines(lines) && i < |lines|
    ensures Read(PrintLines(lines, i, rest), Meaning(lines, i))
         == Read(PrintLines(lines, i + 1, rest), Meaning(lines, i + 1))
  {
    SizesGrow(lines, i, |lines|);
    SizesGrow(lines, i + 1, |lines|);
    ReadLine(lines[i], PrintLines(lines, i + 1, rest), Meaning(lines, i));
  }

  /** Read, from the k-th line on. */
  function ReadFrom(lines: seq<Line>, rest: string, k: nat): Outcome
    requires k <= |lines|
  {
    Read(PrintLines(lines, k, rest), Meaning(lines, k))
  }

  lemma {:induction false} SameFrom(lines: seq<Line>, rest: string, k: nat)
    requires k <= |lines|
    requires forall j: nat :: j < |lines| ==> ReadFrom(lines, rest, j) == ReadFrom(lines, rest, j + 1)
    ensures ReadFrom(lines, rest, 0) == ReadFrom(lines, rest, k)
  {
    if k > 0 {
      SameFrom(lines, rest, k - 1);
    }
  }

  lemma {:induction false} ReadLines(lines: seq<Line>, rest: string)
    requires PrintableLines(lines)
    ensures ReadFrom(lines, rest, 0) == ReadFrom(lines, rest, |lines|)
  {
    forall j: nat | j < |lines|
      ensures ReadFrom(lines, rest, j) == ReadFrom(lines, rest, j + 1)
    {
      ReadOneLine(lines, j, rest);
    }
    SameFrom(lines, rest, |lines|);
  }

  lemma {:induction false} ReadBlank(crlf: bool, rest: string, f: Frame)
    ensures Read(Ending(crlf) + rest, f) == Read(rest, START).After(Dispatch(f))
  {
    LineRead("", crlf, rest);
    assert "" + Ending(crlf) + rest == Ending(crlf) + rest;
  }

  /** Whole blocks give their events, and the rest is read from the start. */
  lemma {:induction false} ReadBlocks(blocks: seq<Block>, rest: string)
    requires PrintableBlocks(blocks)
    ensures Read(PrintAll(blocks, rest), START) == Read(rest, START).After(Events(blocks))
  {
    if blocks == [] {
    } else {
      var lines, more := blocks[0].lines, PrintAll(blocks[1..], rest);
      assert PrintableLines(lines);
      ReadLines(lines, Ending(blocks[0].crlf) + more);
      ReadBlank(blocks[0].crlf, more, Meaning(lines, |lines|));
      ReadBlocks(blocks[1..], rest);
      AfterTwice(Dispatch(Meaning(lines, |lines|)), Events(blocks[1..]), Read(rest, START));
    }
  }

  /** How the input ends inside an event: after a line end, inside CR LF, or with no line end at all. */
  datatype Cut = AtLine | InsideEnding(line: Line) | InsideLine(line: Line)

  function PrintCut(cut: Cut): string {
    match cut
    case AtLine => ""
    case InsideEnding(line) => TextOf(line) + "\r"
    case InsideLine(line) => TextOf(line)
  }

  /** The cut line counts; only its own text must not end in CR. */
  predicate PrintableCut(cut: Cut) {
    match cut
    case AtLine => true
    case InsideEnding(line) => Printable(line) && line.crlf
    case InsideLine(line) => Printable(line) && TextOf(line)[|TextOf(line)| - 1] != '\r'
  }

  function WithCut(lines: seq<Line>, cut: Cut): seq<Line> {
    match cut
    case AtLine => lines
    case InsideEnding(line) => lines + [line]
    case InsideLine(line) => lines + [line]
  }

  lemma {:induction false} ReadEnd(f: Frame)
    ensures Read("", f) == Outcome(Dispatch(f), true)
  {
    FindFirst("", '\n', 0);
  }

  lemma {:induction false} LastText(line: Line, last: string)
    requires Printable(line)
    requires last == TextOf(line) + "\r" || (last == TextOf(line) && last[|last| - 1] != '\r')
    ensures Find(last, '\n') == |last| && TrimSuffix(last[..|last|], '\r') == TextOf(line)
  {
    var t := TextOf(line);
    FindFirst(last, '\n', |last|);
    assert last[..|last|] == last && (t + "\r")[..|t|] == t;
  }

  /** A line with no line end is read like a whole one, and ends the input. */
  lemma {:induction false} ReadLast(line: Line, last: string, f: Frame)
    requires Printable(line) && Added(f, line.field).size <= 16384 && |last| <= 16385
    requires last == TextOf(line) + "\r" || (last == TextOf(line) && last[|last| - 1] != '\r')
    ensures Read(last, f) == Outcome(Dispatch(Added(f, line.field)), true)
  {
    LastText(line, last);
    ReadEnd(f);
    if TextOf(line)[0] == ':' {
      CommentIsNoise(line);
    } else {
      AbsorbPrinted(f, line);
    }
  }

  /**
   Round trip: any printed blocks, whatever separators and line ends they use, are read back as exactly
   the events they stand for, in order, and so is an event that the end of the input cuts short of its
   blank line, of its last line end or of half of that. Comments and unknown fields change nothing.
   */
  lemma {:induction false} RoundTrip(blocks: seq<Block>, lines: seq<Line>, cut: Cut)
    requires PrintableBlocks(blocks) && PrintableLines(WithCut(lines, cut)) && PrintableCut(cut)
    ensures Read(PrintAll(blocks, PrintLines(lines, 0, PrintCut(cut))), START)
         == Outcome(Events(blocks) + Dispatch(Meaning(WithCut(lines, cut), |WithCut(lines, cut)|)), true)
  {
    ReadBlocks(blocks, PrintLines(lines, 0, PrintCut(cut)));
    ReadCutLines(lines, cut);
  }

  lemma {:induction false} ReadCutLines(lines: seq<Line>, cut: Cut)
    requires PrintableLines(WithCut(lines, cut)) && PrintableCut(cut)
    ensures Read(PrintLines(lines, 0, PrintCut(cut)), START)
         == Outcome(Dispatch(Meaning(WithCut(lines, cut), |WithCut(lines, cut)|)), true)
  {
    PrefixPrintable(lines, cut);
    ReadLines(lines, PrintCut(cut));
    var f := Meaning(lines, |lines|);
    match cut
    case AtLine => ReadEnd(f);
    case InsideEnding(line) => ReadLast(line, PrintCut(cut), f);
    case InsideLine(line) => ReadLast(line, PrintCut(cut), f);
  }

  lemma {:induction false} MeaningOfPrefix(lines: seq<Line>, more: seq<Line>, n: nat)
    requires n <= |lines|
    ensures Meaning(lines + more, n) == Meaning(lines, n)
  {
    if n > 0 {
      MeaningOfPrefix(lines, more, n - 1);
    }
  }

  lemma {:induction false} PrefixPrintable(lines: seq<Line>, cut: Cut)
    requires PrintableLines(WithCut(lines, cut))
    ensures PrintableLines(lines)
    ensures !cut.AtLine? ==>
              Meaning(WithCut(lines, cut), |lines| + 1) == Added(Meaning(lines, |lines|), cut.line.field)
  {
    var all := WithCut(lines, cut);
    if !cut.AtLine? {
      MeaningOfPrefix(lines, [cut.line], |lines|);
      SizesGrow(all, |lines|, |all|);
      assert forall i :: 0 <= i < |lines| ==> lines[i] == all[i];
    }
  }

  // ---------------------------------------------------------------- refusals

  /** The line that takes an event over the limit ends the reading; the events before it are handed over. */
  lemma {:induction false} LargeEventFails(blocks: seq<Block>, lines: seq<Line>, line: Line, rest: string)
    requires PrintableBlocks(blocks) && PrintableLines(lines) && Printable(line)
    requires Added(Meaning(lines, |lines|), line.field).size > 16384
    ensures Read(PrintAll(blocks, PrintLines(lines, 0, TextOf(line) + Ending(line.crlf) + rest)), START)
         == Outcome(Events(blocks), false)
  {
    var more := TextOf(line) + Ending(line.crlf) + rest;
    ReadBlocks(blocks, PrintLines(lines, 0, more));
    ReadLines(lines, more);
    ReadLine(line, rest, Meaning(lines, |lines|));
  }

  /** So does a line longer than the limit, its line end not counted. */
  lemma {:induction false} LongLineFails(blocks: seq<Block>, lines: seq<Line>, long: string, rest: string)
    requires PrintableBlocks(blocks) && PrintableLines(lines) && '\n' !in long && |long| > 16384
    ensures Read(PrintAll(blocks, PrintLines(lines, 0, long + "\n" + rest)), START) == Outcome(Events(blocks), false)
  {
    var more := long + "\n" + rest;
    ReadBlocks(blocks, PrintLines(lines, 0, more));
    ReadLines(lines, more);
    FindFirst(more, '\n', |long|);
  }

  // ---------------------------------------------------------------- texts of several lines

  function SplitLines(s: string): (lines: seq<string>)
    ensures lines != []
    decreases |s|
  {
    var n := Find(s, '\n');
    if n == |s| then [s] else [s[..n]] + SplitLines(s[n + 1..])
  }

  lemma {:induction false} JoinFirst(first: string, lines: seq<string>)
    requires lines != []
    ensures Join([first] + lines) == first + "\n" + Join(lines)
  {
    var all := [first] + lines;
    assert all[..|all| - 1] == [first] + lines[..|lines| - 1];
    if |lines| == 1 {
      assert all[..1] == [first];
    } else {
      JoinFirst(first, lines[..|lines| - 1]);
      assert first + "\n" + Join(lines)
          == first + "\n" + Join(lines[..|lines| - 1]) + "\n" + lines[|lines| - 1];
    }
  }

  /** A text sent as one data field per line arrives as that text. */
  lemma {:induction false} DataRoundTrip(s: string)
    ensures Join(SplitLines(s)) == s
    decreases |s|
  {
    var n := Find(s, '\n');
    if n < |s| {
      var first, more := s[..n], s[n + 1..];
      assert s == first + "\n" + more;
      JoinFirst(first, SplitLines(more));
      DataRoundTrip(more);
    }
  }

  // ---------------------------------------------------------------- the server's own frames

  function Plainly(field: Field): Line {
    Line(field, Spaced, false)
  }

  /** A frame as the event stream writes it: an id, a name and one data line. */
  function ServerFrame(id: string, e: Event): seq<Line> {
    [Plainly(Noise("id: " + id)), Plainly(Name(e.name)), Plainly(Data(e.data))]
  }

  const HEARTBEAT := [Plainly(Noise(": heartbeat"))]

  datatype Item = Message(id: string, e: Event) | Beat

  function LinesOf(item: Item): seq<Line> {
    match item
    case Message(id, e) => ServerFrame(id, e)
    case Beat => HEARTBEAT
  }

  function Blocks(items: seq<Item>): seq<Block> {
    if items == [] then [] else [Block(LinesOf(items[0]), false)] + Blocks(items[1..])
  }

  function Messages(items: seq<Item>): seq<Event> {
    if items == [] then []
    else (if items[0].Message? then [items[0].e] else []) + Messages(items[1..])
  }

  /** No LF, no trailing CR, and short enough for one line. */
  predicate Plain(s: string) {
    '\n' !in s && (s == "" || s[|s| - 1] != '\r') && |s| <= 16384 - 7
  }

  predicate Sendable(item: Item) {
    match item
    case Message(id, e) => Plain(id) && Plain(e.name) && Plain(e.data) && |e.name| + |e.data| <= 16384
    case Beat => true
  }

  /** A line made of a label and a plain value is one printable line. */
  lemma {:induction false} LabelledLine(prefix: string, v: string)
    requires Plain(v) && 1 <= |prefix| <= 7 && '\n' !in prefix && prefix[|prefix| - 1] != '\r'
    ensures
      var t := prefix + v;
      t != "" && '\n' !in t && t[|t| - 1] != '\r' && |t| + 1 <= 16385
  {
    var t := prefix + v;
    assert v != "" ==> t[|t| - 1] == v[|v| - 1];
  }

  lemma {:induction false} IdPrintable(id: string)
    requires Plain(id)
    ensures Printable(Plainly(Noise("id: " + id)))
  {
    LabelledLine("id: ", id);
    FindFirst("id: " + id, ':', 2);
    assert ("id: " + id)[..2] == "id";
  }

  lemma {:induction false} NamePrintable(v: string)
    requires Plain(v)
    ensures Printable(Plainly(Name(v)))
  {
    LabelledLine("event: ", v);
    assert TextOf(Plainly(Name(v))) == "event: " + v;
  }

  lemma {:induction false} DataPrintable(v: string)
    requires Plain(v)
    ensures Printable(Plainly(Data(v)))
  {
    LabelledLine("data: ", v);
    assert TextOf(Plainly(Data(v))) == "data: " + v;
  }

  lemma {:induction false} FrameMeaning(id: string, e: Event)
    ensures Meaning(ServerFrame(id, e), 3) == Frame(e.name, [e.data], true, |e.name| + |e.data|)
  {
    var lines := ServerFrame(id, e);
    assert Meaning(lines, 0) == START;
    assert Meaning(lines, 1) == Added(START, lines[0].field);
    assert Meaning(lines, 2) == Added(Meaning(lines, 1), lines[1].field);
  }

  lemma {:induction false} ItemMeaning(item: Item)
    requires Sendable(item)
    ensures PrintableLines(LinesOf(item))
    ensures Dispatch(Meaning(LinesOf(item), |LinesOf(item)|)) == if item.Message? then [item.e] else []
  {
    match item {
      case Beat =>
        LabelledLine(": heart", "beat");
        assert ": heartbeat" == ": heart" + "beat";
        assert Meaning(HEARTBEAT, 0) == START;
      case Message(id, e) =>
        IdPrintable(id);
        NamePrintable(e.name);
        DataPrintable(e.data);
        FrameMeaning(id, e);
    }
  }

  lemma {:induction false} BlocksMeanMessages(items: seq<Item>)
    requires forall i :: 0 <= i < |items| ==> Sendable(items[i])
    ensures Events(Blocks(items)) == Messages(items) && PrintableBlocks(Blocks(items))
  {
    if items != [] {
      ItemMeaning(items[0]);
      BlocksMeanMessages(items[1..]);
      assert Blocks(items)[1..] == Blocks(items[1..]);
      forall i | 0 <= i < |Blocks(items)|
        ensures PrintableLines(Blocks(items)[i].lines)
      {
        if i > 0 {
          assert Blocks(items)[i] == Blocks(items[1..])[i - 1];
        }
      }
    }
  }

  /** The stream a subscriber gets, ids and heartbeats included, reads back as its messages in order. */
  lemma {:induction false} ServerStreamRoundTrip(items: seq<Item>)
    requires forall i :: 0 <= i < |items| ==> Sendable(items[i])
    ensures Read(PrintAll(Blocks(items), ""), START) == Outcome(Messages(items), true)
  {
    BlocksMeanMessages(items);
    RoundTrip(Blocks(items), [], AtLine);
  }
}
