/** Reading a stream of server-sent events, and why it undoes printing one. */
module EventStream {
  datatype Message = Message(event: string, data: string)

  /** What the receiver of messages answers. */
  datatype Verdict = Continue | Stop | Fail

  /** How reading ends: at the end of the stream or stopped by the receiver, failed by it, or at a line too long. */
  datatype Ending = Done | Failed | TooLong

  // ------------------------------------------------------------------ lines

  /** A line this long, or longer, does not fit the scanner's buffer. */
  const LIMIT: nat := 4 * 1024 * 1024

  function DropCR(line: string): string {
    if line != "" && line[|line| - 1] == '\r' then line[..|line| - 1] else line
  }

  function LineLength(s: string): (n: nat)
    ensures n <= |s| && (forall k :: 0 <= k < n ==> s[k] != '\n') && (n < |s| ==> s[n] == '\n')
  {
    if s == "" || s[0] == '\n' then 0 else 1 + LineLength(s[1..])
  }

  /** The lines of a text without their ends, up to the first that is too long. */
  function Lines(s: string): (r: (seq<string>, bool))
    decreases |s|
  {
    if s == "" then ([], false)
    else
      var n := LineLength(s);
      if n >= LIMIT then ([], true)
      else if n == |s| then ([DropCR(s)], false)
      else
        var rest := Lines(s[n + 1..]);
        ([DropCR(s[..n])] + rest.0, rest.1)
  }

  // ------------------------------------------------------------------ the meaning of lines

  predicate HasPrefix(line: string, prefix: string) {
    prefix <= line
  }

  predicate IsSpace(c: char) {
    var n := c as int;
    9 <= n <= 13 || n == 0x20 || n == 0x85 || n == 0xA0 || n == 0x1680 || 0x2000 <= n <= 0x200A
      || n == 0x2028 || n == 0x2029 || n == 0x202F || n == 0x205F || n == 0x3000
  }

  function TrimLeft(s: string): (r: string)
    ensures r == "" || !IsSpace(r[0])
    ensures forall c :: c in r ==> c in s
  {
    if s != "" && IsSpace(s[0]) then TrimLeft(s[1..]) else s
  }

  function TrimRight(s: string): (r: string)
    ensures r <= s && (r == "" || !IsSpace(r[|r| - 1]))
  {
    if s != "" && IsSpace(s[|s| - 1]) then TrimRight(s[..|s| - 1]) else s
  }

  function TrimSpace(s: string): (r: string)
    ensures Trimmed(r)
    ensures forall c :: c in r ==> c in s
  {
    TrimRight(TrimLeft(s))
  }

  predicate Trimmed(s: string) {
    s == "" || (!IsSpace(s[0]) && !IsSpace(s[|s| - 1]))
  }

  const EVENT := "event:"
  const DATA := "data:"

  predicate IsComment(line: string) {
    HasPrefix(line, ":")
  }

  /** Comments and fields other than event and data. */
  predicate Ignored(line: string) {
    line != "" && !HasPrefix(line, EVENT) && !HasPrefix(line, DATA)
  }

  function DataOf(line: string): string
    requires HasPrefix(line, DATA)
  {
    var rest := line[|DATA|..];
    if HasPrefix(rest, " ") then rest[1..] else rest
  }

  /** A data line added to what the message holds so far; no line break before the first text. */
  function AddData(data: string, line: string): string
    requires HasPrefix(line, DATA)
  {
    (if data != "" then data + "\n" else data) + DataOf(line)
  }

  /** What is delivered from the remaining lines, and how reading ends. */
  function Deliver(lines: seq<string>, tooLong: bool, event: string, data: string, delivered: seq<Message>,
                   decide: seq<Message> -> Verdict): (r: (seq<Message>, Ending))
    decreases |lines|
  {
    if lines == [] then
      if tooLong then (delivered, TooLong)
      else if data == "" then (delivered, Done)
      else
        var all := delivered + [Message(event, data)];
        (all, if decide(all) == Fail then Failed else Done)
    else
      var line, rest := lines[0], lines[1..];
      if line == "" then
        if data == "" then Deliver(rest, tooLong, "", "", delivered, decide)
        else
          var all := delivered + [Message(event, data)];
          match decide(all)
          case Continue => Deliver(rest, tooLong, "", "", all, decide)
          case Stop => (all, Done)
          case Fail => (all, Failed)
      else if IsComment(line) then Deliver(rest, tooLong, event, data, delivered, decide)
      else if HasPrefix(line, EVENT) then
        Deliver(rest, tooLong, TrimSpace(line[|EVENT|..]), data, delivered, decide)
      else if HasPrefix(line, DATA) then
        Deliver(rest, tooLong, event, AddData(data, line), delivered, decide)
      else Deliver(rest, tooLong, event, data, delivered, decide)
  }

  function Read(body: string, decide: seq<Message> -> Verdict): (seq<Message>, Ending) {
    var (lines, tooLong) := Lines(body);
    Deliver(lines, tooLong, "", "", [], decide)
  }

  /** The reader: one scan over the text, with the event name and the data of the message being read. */
  method ReadSSE(body: string, decide: seq<Message> -> Verdict) returns (delivered: seq<Message>, ending: Ending)
    ensures (delivered, ending) == Read(body, decide)
  {
    var event, data := "", "";
    delivered := [];
    var pos := 0;
    ghost var answer := Read(body, decide);
    while pos < |body|
      invariant 0 <= pos <= |body|
      invariant answer == var (lines, tooLong) := Lines(body[pos..]);
                          Deliver(lines, tooLong, event, data, delivered, decide)
    {
      var rest := body[pos..];
      var n := ScanLine(rest);
      if n >= LIMIT {
        return delivered, TooLong;
      }
      var line := DropCR(rest[..n]);
      pos := if n == |rest| then |body| else pos + n + 1;
      assert rest[..|rest|] == rest && (n < |rest| ==> rest[n + 1..] == body[pos..]);
      assert Lines(rest).0 == [line] + Lines(body[pos..]).0 && Lines(rest).1 == Lines(body[pos..]).1;
      assert ([line] + Lines(body[pos..]).0)[1..] == Lines(body[pos..]).0;
      if line == "" {
        if data == "" {
          event := "";
        } else {
          delivered := delivered + [Message(event, data)];
          event, data := "", "";
          match decide(delivered) {
            case Continue =>
            case Stop => return delivered, Done;
            case Fail => return delivered, Failed;
          }
        }
      } else if IsComment(line) {
      } else if HasPrefix(line, EVENT) {
        event := TrimSpace(line[|EVENT|..]);
      } else if HasPrefix(line, DATA) {
        data := AddData(data, line);
      }
    }
    assert body[pos..] == "";
    if data == "" {
      return delivered, Done;
    }
    delivered := delivered + [Message(event, data)];
    ending := if decide(delivered) == Fail then Failed else Done;
  }

  method ScanLine(s: string) returns (n: nat)
    ensures n == LineLength(s)
  {
    n := 0;
    while n < |s| && s[n] != '\n'
      invariant n <= |s| && n + LineLength(s[n..]) == LineLength(s)
    {
      assert s[n..][1..] == s[n + 1..];
      n := n + 1;
    }
  }

  // ------------------------------------------------------------------ printing

  /** The lines of a text, at least one, without interpretation of carriage returns. */
  function Split(s: string): (lines: seq<string>)
    ensures lines != []
    ensures forall k :: 0 <= k < |lines| ==> '\n' !in lines[k]
    decreases |s|
  {
    var n := LineLength(s);
    if n == |s| then
      assert s[..n] == s;
      [s]
    else [s[..n]] + Split(s[n + 1..])
  }

  function Unsplit(lines: seq<string>): string
    requires lines != []
  {
    if |lines| == 1 then lines[0] else lines[0] + "\n" + Unsplit(lines[1..])
  }

  function DataLines(lines: seq<string>): (r: seq<string>)
    ensures |r| == |lines| && forall k :: 0 <= k < |r| ==> r[k] == DATA + " " + lines[k]
  {
    if lines == [] then [] else [DATA + " " + lines[0]] + DataLines(lines[1..])
  }

  function PrintLines(m: Message): seq<string> {
    (if m.event == "" then [] else [EVENT + " " + m.event]) + DataLines(Split(m.data)) + [""]
  }

  function PrintAll(ms: seq<Message>): seq<string> {
    if ms == [] then [] else PrintLines(ms[0]) + PrintAll(ms[1..])
  }

  function Text(lines: seq<string>): string {
    if lines == [] then "" else lines[0] + "\n" + Text(lines[1..])
  }

  predicate EndsInCR(line: string) {
    line != "" && line[|line| - 1] == '\r'
  }

  /** A message that survives printing: its name is a single trimmed line, its data is not empty, does not start with
      a line break, and none of its lines ends in a carriage return. */
  predicate Recoverable(m: Message) {
    && Trimmed(m.event) && '\n' !in m.event
    && m.data != "" && m.data[0] != '\n'
    && forall k :: 0 <= k < |Split(m.data)| ==> !EndsInCR(Split(m.data)[k])
  }

  ghost predicate NeverInterrupts(decide: seq<Message> -> Verdict) {
    forall h :: decide(h) == Continue
  }

  // ------------------------------------------------------------------ lines of printed text

  ghost predicate Fits(lines: seq<string>) {
    forall k :: 0 <= k < |lines| ==> '\n' !in lines[k] && |lines[k]| < LIMIT
  }

  function DropCRs(lines: seq<string>): (r: seq<string>)
    ensures |r| == |lines| && forall k :: 0 <= k < |r| ==> r[k] == DropCR(lines[k])
  {
    seq(|lines|, k requires 0 <= k < |lines| => DropCR(lines[k]))
  }

  lemma {:induction false} LineLengthOf(line: string, rest: string)
    requires '\n' !in line && (rest == "" || rest[0] == '\n')
    ensures LineLength(line + rest) == |line|
  {
    if line == "" {
      assert line + rest == rest;
    } else {
      assert (line + rest)[1..] == line[1..] + rest;
      assert forall c :: c in line[1..] ==> c in line;
      LineLengthOf(line[1..], rest);
    }
  }

  /** Scanning printed lines gives them back, less one carriage return at the end of each. */
  lemma {:induction false} LinesOfText(lines: seq<string>)
    requires Fits(lines)
    ensures Lines(Text(lines)) == (DropCRs(lines), false)
  {
    if lines != [] {
      var rest := Text(lines[1..]);
      var s := lines[0] + "\n" + rest;
      assert s == lines[0] + ("\n" + rest);
      LineLengthOf(lines[0], "\n" + rest);
      assert s[..|lines[0]|] == lines[0] && s[|lines[0]| + 1..] == rest;
      LinesOfText(lines[1..]);
      assert DropCRs(lines) == [DropCR(lines[0])] + DropCRs(lines[1..]);
    }
  }

  // ------------------------------------------------------------------ lines that do not matter

  function Significant(lines: seq<string>): seq<string> {
    if lines == [] then []
    else (if Ignored(lines[0]) then [] else [lines[0]]) + Significant(lines[1..])
  }

  /** Comments and unknown fields may stand anywhere, even inside a message. */
  lemma {:induction false} IgnoredLinesDoNotMatter(lines: seq<string>, tooLong: bool, event: string, data: string,
                                                   delivered: seq<Message>, decide: seq<Message> -> Verdict)
    ensures Deliver(lines, tooLong, event, data, delivered, decide)
         == Deliver(Significant(lines), tooLong, event, data, delivered, decide)
    decreases |lines|
  {
    if lines != [] {
      var line, rest := lines[0], lines[1..];
      if Ignored(line) {
        assert Significant(lines) == Significant(rest);
        IgnoredLinesDoNotMatter(rest, tooLong, event, data, delivered, decide);
      } else {
        var kept := Significant(lines);
        assert kept[0] == line && kept[1..] == Significant(rest);
        CommentIsNoField(line);
        if line == "" {
          IgnoredLinesDoNotMatter(rest, tooLong, "", "", delivered, decide);
          IgnoredLinesDoNotMatter(rest, tooLong, "", "", delivered + [Message(event, data)], decide);
        } else if HasPrefix(line, EVENT) {
          IgnoredLinesDoNotMatter(rest, tooLong, TrimSpace(line[|EVENT|..]), data, delivered, decide);
        } else {
          IgnoredLinesDoNotMatter(rest, tooLong, event, AddData(data, line), delivered, decide);
        }
      }
    }
  }

  lemma CommentIsNoField(line: string)
    ensures IsComment(line) ==> Ignored(line)
  {
    if IsComment(line) {
      assert line[0] == ':';
    }
  }

  // ------------------------------------------------------------------ one message read back

  lemma {:induction false} UnsplitSplit(s: string)
    ensures Unsplit(Split(s)) == s
    decreases |s|
  {
    var n := LineLength(s);
    if n < |s| {
      var rest := s[n + 1..];
      UnsplitSplit(rest);
      var lines := [s[..n]] + Split(rest);
      assert lines[1..] == Split(rest) && |lines| > 1;
      assert Unsplit(lines) == s[..n] + "\n" + rest;
      assert s == s[..n] + "\n" + rest;
    }
  }

  lemma DataOfPrinted(line: string)
    ensures HasPrefix(DATA + " " + line, DATA) && !HasPrefix(DATA + " " + line, EVENT)
    ensures DataOf(DATA + " " + line) == line
    ensures DATA + " " + line != "" && !IsComment(DATA + " " + line)
  {
    var printed := DATA + " " + line;
    assert printed[0] == 'd';
    assert printed[|DATA|..] == " " + line;
    assert (" " + line)[1..] == line;
  }

  lemma Regroup(a: string, b: string, c: string, d: string)
    ensures (a + b) + c + d == a + (b + c + d)
  {
  }

  /** One data line, read onto what is there already. */
  lemma ReadOneData(lines: seq<string>, rest: seq<string>, tooLong: bool, event: string, data: string, more: string,
                    delivered: seq<Message>, decide: seq<Message> -> Verdict)
    requires lines != [] && more == if data == "" then lines[0] else data + "\n" + lines[0]
    ensures Deliver(DataLines(lines) + rest, tooLong, event, data, delivered, decide)
         == Deliver(DataLines(lines[1..]) + rest, tooLong, event, more, delivered, decide)
  {
    var all := DataLines(lines) + rest;
    DataOfPrinted(lines[0]);
    assert all[0] == DATA + " " + lines[0] && all[1..] == DataLines(lines[1..]) + rest;
    assert AddData(data, all[0]) == more;
  }

  /** The data lines of a message, read onto data that is already there. */
  lemma {:induction false} ReadMoreData(lines: seq<string>, rest: seq<string>, tooLong: bool, event: string,
                                        data: string, delivered: seq<Message>, decide: seq<Message> -> Verdict)
    requires lines != [] && data != ""
    ensures Deliver(DataLines(lines) + rest, tooLong, event, data, delivered, decide)
         == Deliver(rest, tooLong, event, data + "\n" + Unsplit(lines), delivered, decide)
    decreases |lines|
  {
    hide Deliver;
    var more := data + "\n" + lines[0];
    ReadOneData(lines, rest, tooLong, event, data, more, delivered, decide);
    if |lines| == 1 {
      assert DataLines(lines[1..]) + rest == rest;
    } else {
      ReadMoreData(lines[1..], rest, tooLong, event, more, delivered, decide);
      Regroup(data + "\n", lines[0], "\n", Unsplit(lines[1..]));
    }
  }

  lemma ReadData(lines: seq<string>, rest: seq<string>, tooLong: bool, event: string,
                 delivered: seq<Message>, decide: seq<Message> -> Verdict)
    requires lines != [] && lines[0] != ""
    ensures Deliver(DataLines(lines) + rest, tooLong, event, "", delivered, decide)
         == Deliver(rest, tooLong, event, Unsplit(lines), delivered, decide)
  {
    hide Deliver;
    ReadOneData(lines, rest, tooLong, event, "", lines[0], delivered, decide);
    if |lines| == 1 {
      assert DataLines(lines[1..]) + rest == rest;
    } else {
      ReadMoreData(lines[1..], rest, tooLong, event, lines[0], delivered, decide);
    }
  }

  lemma TrimOfTrimmed(name: string)
    requires Trimmed(name) && name != ""
    ensures TrimSpace(" " + name) == name
  {
    assert (" " + name)[1..] == name;
    assert TrimLeft(name) == name;
    assert TrimLeft(" " + name) == name;
  }

  lemma ReadEvent(name: string, rest: seq<string>, tooLong: bool, delivered: seq<Message>,
                  decide: seq<Message> -> Verdict)
    requires Trimmed(name) && name != ""
    ensures Deliver([EVENT + " " + name] + rest, tooLong, "", "", delivered, decide)
         == Deliver(rest, tooLong, name, "", delivered, decide)
  {
    var line := EVENT + " " + name;
    assert line[0] == 'e' && line[|EVENT|..] == " " + name;
    assert ([line] + rest)[1..] == rest;
    TrimOfTrimmed(name);
  }

  lemma FirstLine(data: string)
    requires data != "" && data[0] != '\n'
    ensures Split(data)[0] != ""
  {
  }

  /** Printed lines of one message without the closing blank line. */
  function OpenLines(m: Message): seq<string> {
    (if m.event == "" then [] else [EVENT + " " + m.event]) + DataLines(Split(m.data))
  }

  lemma ReadOpen(m: Message, rest: seq<string>, tooLong: bool, delivered: seq<Message>, decide: seq<Message> -> Verdict)
    requires Recoverable(m)
    ensures Deliver(OpenLines(m) + rest, tooLong, "", "", delivered, decide)
         == Deliver(rest, tooLong, m.event, m.data, delivered, decide)
  {
    hide Deliver, DataLines, Split;
    var lines := Split(m.data);
    FirstLine(m.data);
    UnsplitSplit(m.data);
    ReadData(lines, rest, tooLong, m.event, delivered, decide);
    if m.event == "" {
      assert OpenLines(m) + rest == DataLines(lines) + rest;
    } else {
      assert OpenLines(m) + rest == [EVENT + " " + m.event] + (DataLines(lines) + rest);
      ReadEvent(m.event, DataLines(lines) + rest, tooLong, delivered, decide);
    }
  }

  lemma ReadOne(m: Message, rest: seq<string>, delivered: seq<Message>, decide: seq<Message> -> Verdict)
    requires Recoverable(m) && NeverInterrupts(decide)
    ensures Deliver(PrintLines(m) + rest, false, "", "", delivered, decide)
         == Deliver(rest, false, "", "", delivered + [m], decide)
  {
    assert PrintLines(m) + rest == OpenLines(m) + ([""] + rest);
    ReadOpen(m, [""] + rest, false, delivered, decide);
    assert ([""] + rest)[1..] == rest;
  }

  lemma {:induction false} ReadPrinted(ms: seq<Message>, rest: seq<string>, delivered: seq<Message>,
                                       decide: seq<Message> -> Verdict)
    requires NeverInterrupts(decide) && forall k :: 0 <= k < |ms| ==> Recoverable(ms[k])
    ensures Deliver(PrintAll(ms) + rest, false, "", "", delivered, decide)
         == Deliver(rest, false, "", "", delivered + ms, decide)
    decreases |ms|
  {
    if ms == [] {
      assert PrintAll(ms) + rest == rest && delivered + ms == delivered;
    } else {
      hide Deliver, Recoverable, PrintLines;
      assert PrintAll(ms) + rest == PrintLines(ms[0]) + (PrintAll(ms[1..]) + rest);
      ReadOne(ms[0], PrintAll(ms[1..]) + rest, delivered, decide);
      ReadPrinted(ms[1..], rest, delivered + [ms[0]], decide);
      assert delivered + [ms[0]] + ms[1..] == delivered + ms;
    }
  }

  // ------------------------------------------------------------------ the round trip

  /** Messages printed with the last blank line left out, if `closed` is false. */
  function Stream(ms: seq<Message>, closed: bool): seq<string> {
    if ms == [] || closed then PrintAll(ms)
    else PrintAll(ms[..|ms| - 1]) + OpenLines(ms[|ms| - 1])
  }

  lemma AtTheEnd(m: Message, delivered: seq<Message>, decide: seq<Message> -> Verdict)
    requires Recoverable(m) && NeverInterrupts(decide)
    ensures Deliver([], false, m.event, m.data, delivered, decide) == (delivered + [m], Done)
  {
  }

  lemma NothingLeft(delivered: seq<Message>, decide: seq<Message> -> Verdict)
    ensures Deliver([], false, "", "", delivered, decide) == (delivered, Done)
  {
  }

  lemma ReadStream(ms: seq<Message>, closed: bool, decide: seq<Message> -> Verdict)
    requires NeverInterrupts(decide) && forall k :: 0 <= k < |ms| ==> Recoverable(ms[k])
    ensures Deliver(Stream(ms, closed), false, "", "", [], decide) == (ms, Done)
  {
    hide Deliver, OpenLines, PrintAll, Recoverable;
    if ms == [] || closed {
      ReadPrinted(ms, [], [], decide);
      NothingLeft([] + ms, decide);
      assert PrintAll(ms) + [] == PrintAll(ms) && [] + ms == ms;
    } else {
      var init, last := ms[..|ms| - 1], ms[|ms| - 1];
      ReadPrinted(init, OpenLines(last), [], decide);
      ReadOpen(last, [], false, [] + init, decide);
      AtTheEnd(last, [] + init, decide);
      assert OpenLines(last) + [] == OpenLines(last);
      assert [] + init + [last] == ms;
    }
  }

  /** Reading undoes printing: whatever comments and unknown fields are interspersed, with or without the final blank
      line, the messages come back in order, all of them and nothing else. */
  lemma RoundTrip(ms: seq<Message>, closed: bool, lines: seq<string>, decide: seq<Message> -> Verdict)
    requires NeverInterrupts(decide) && forall k :: 0 <= k < |ms| ==> Recoverable(ms[k])
    requires Significant(lines) == Stream(ms, closed)
    requires Fits(lines) && forall k :: 0 <= k < |lines| ==> !EndsInCR(lines[k])
    ensures Read(Text(lines), decide) == (ms, Done)
  {
    LinesOfText(lines);
    assert DropCRs(lines) == lines;
    IgnoredLinesDoNotMatter(lines, false, "", "", [], decide);
    ReadStream(ms, closed, decide);
  }

  // ------------------------------------------------------------------ what can be delivered at all

  ghost predicate Deliverable(m: Message) {
    Trimmed(m.event) && '\n' !in m.event && m.data != "" && m.data[0] != '\n'
  }

  ghost predicate AllDeliverable(ms: seq<Message>) {
    forall k :: 0 <= k < |ms| ==> Deliverable(ms[k])
  }

  lemma {:induction false} LinesHaveNoBreaks(s: string)
    ensures forall k :: 0 <= k < |Lines(s).0| ==> '\n' !in Lines(s).0[k]
    decreases |s|
  {
    if s != "" {
      var n := LineLength(s);
      if n < LIMIT && n < |s| {
        LinesHaveNoBreaks(s[n + 1..]);
      }
    }
  }

  lemma {:induction false} OnlyDeliverable(lines: seq<string>, tooLong: bool, event: string, data: string,
                                           delivered: seq<Message>, decide: seq<Message> -> Verdict)
    requires forall k :: 0 <= k < |lines| ==> '\n' !in lines[k]
    requires Trimmed(event) && '\n' !in event && (data == "" || data[0] != '\n')
    requires AllDeliverable(delivered)
    ensures AllDeliverable(Deliver(lines, tooLong, event, data, delivered, decide).0)
    decreases |lines|
  {
    if lines != [] {
      var line, rest := lines[0], lines[1..];
      if line == "" {
        if data == "" {
          OnlyDeliverable(rest, tooLong, "", "", delivered, decide);
        } else {
          OnlyDeliverable(rest, tooLong, "", "", delivered + [Message(event, data)], decide);
        }
      } else if IsComment(line) {
        OnlyDeliverable(rest, tooLong, event, data, delivered, decide);
      } else if HasPrefix(line, EVENT) {
        assert forall c :: c in line[|EVENT|..] ==> c in line;
        OnlyDeliverable(rest, tooLong, TrimSpace(line[|EVENT|..]), data, delivered, decide);
      } else if HasPrefix(line, DATA) {
        assert forall c :: c in DataOf(line) ==> c in line;
        assert AddData("", line) == DataOf(line);
        OnlyDeliverable(rest, tooLong, event, AddData(data, line), delivered, decide);
      } else {
        OnlyDeliverable(rest, tooLong, event, data, delivered, decide);
      }
    }
  }

  /** No text whatever makes the reader deliver an empty message, data that starts with a line break, or a name with
      spaces around it or a line break in it. */
  lemma DeliveredShape(body: string, decide: seq<Message> -> Verdict)
    ensures AllDeliverable(Read(body, decide).0)
  {
    var (lines, tooLong) := Lines(body);
    LinesHaveNoBreaks(body);
    OnlyDeliverable(lines, tooLong, "", "", [], decide);
  }

  // ------------------------------------------------------------------ exactly which messages survive

  lemma {:induction false} ReadAnyData(lines: seq<string>, rest: seq<string>, tooLong: bool, event: string,
                                       data: string,
                                       delivered: seq<Message>, decide: seq<Message> -> Verdict) returns (more: string)
    requires lines != []
    ensures Deliver(DataLines(lines) + rest, tooLong, event, data, delivered, decide)
         == Deliver(rest, tooLong, event, more, delivered, decide)
    ensures |more| <= |data| + (if data == "" then 0 else 1) + |Unsplit(lines)|
    decreases |lines|
  {
    hide Deliver;
    more := if data == "" then lines[0] else data + "\n" + lines[0];
    ReadOneData(lines, rest, tooLong, event, data, more, delivered, decide);
    if |lines| == 1 {
      assert DataLines(lines[1..]) + rest == rest;
    } else {
      more := ReadAnyData(lines[1..], rest, tooLong, event, more, delivered, decide);
    }
  }

  lemma {:induction false} DropCRsShorten(lines: seq<string>)
    requires lines != []
    ensures |Unsplit(DropCRs(lines))| <= |Unsplit(lines)|
    ensures (exists k :: 0 <= k < |lines| && EndsInCR(lines[k])) ==> |Unsplit(DropCRs(lines))| < |Unsplit(lines)|
  {
    if |lines| > 1 {
      DropCRsShorten(lines[1..]);
      assert DropCRs(lines)[1..] == DropCRs(lines[1..]);
      if (exists k :: 0 <= k < |lines| && EndsInCR(lines[k])) && !EndsInCR(lines[0]) {
        var k :| 0 <= k < |lines| && EndsInCR(lines[k]);
        assert lines[1..][k - 1] == lines[k];
      }
    }
  }

  lemma DropCRsConcat(a: seq<string>, b: seq<string>)
    ensures DropCRs(a + b) == DropCRs(a) + DropCRs(b)
  {
  }

  lemma DropCRsOfData(lines: seq<string>)
    ensures DropCRs(DataLines(lines)) == DataLines(DropCRs(lines))
  {
    hide DataLines;
    forall k | 0 <= k < |lines| ensures DropCRs(DataLines(lines))[k] == DataLines(DropCRs(lines))[k] {
      DropCROfData(lines[k]);
    }
  }

  function Head(m: Message): seq<string> {
    if m.event == "" then [] else [EVENT + " " + m.event]
  }

  lemma DropCRsOfPrinted(m: Message)
    requires Trimmed(m.event)
    ensures DropCRs(PrintLines(m)) == Head(m) + DataLines(DropCRs(Split(m.data))) + [""]
  {
    hide DataLines, Split;
    assert PrintLines(m) == Head(m) + DataLines(Split(m.data)) + [""];
    DropCRsConcat(Head(m) + DataLines(Split(m.data)), [""]);
    DropCRsConcat(Head(m), DataLines(Split(m.data)));
    DropCRsOfData(Split(m.data));
    if m.event != "" {
      assert !EndsInCR(EVENT + " " + m.event);
    }
    assert DropCRs(Head(m)) == Head(m);
    assert DropCRs([""]) == [""];
  }

  lemma DropCROfData(line: string)
    ensures DropCR(DATA + " " + line) == DATA + " " + DropCR(line)
  {
    var printed := DATA + " " + line;
    if EndsInCR(line) {
      assert printed[..|printed| - 1] == DATA + " " + line[..|line| - 1];
    } else if line == "" {
      assert printed[|printed| - 1] == ' ';
    } else {
      assert printed[|printed| - 1] == line[|line| - 1];
    }
  }

  /** A carriage return at the end of some line of the data is lost. */
  lemma CarriageReturnIsLost(m: Message, decide: seq<Message> -> Verdict)
    requires Deliverable(m) && !Recoverable(m) && Fits(PrintLines(m))
    ensures Read(Text(PrintLines(m)), decide).0 != [m]
  {
    var lines := DropCRs(Split(m.data));
    LinesOfText(PrintLines(m));
    DropCRsOfPrinted(m);
    DropCRsShorten(Split(m.data));
    UnsplitSplit(m.data);
    var rest := DataLines(lines) + [""];
    hide Split, DataLines, Deliver;
    assert DropCRs(PrintLines(m)) == Head(m) + rest;
    if m.event != "" {
      ReadEvent(m.event, rest, false, [], decide);
    } else {
      assert Head(m) + rest == rest;
    }
    var more := ReadAnyData(lines, [""], false, m.event, "", [], decide);
    assert Read(Text(PrintLines(m)), decide) == Deliver([""], false, m.event, more, [], decide);
    CloseOne(m.event, more, decide);
  }

  lemma CloseOne(event: string, data: string, decide: seq<Message> -> Verdict)
    ensures Deliver([""], false, event, data, [], decide).0 == if data == "" then [] else [Message(event, data)]
  {
    var rest: seq<string> := [""][1..];
    assert rest == [];
  }

  /** How much data some messages hold. */
  function Total(ms: seq<Message>): nat {
    if ms == [] then 0 else |ms[0].data| + Total(ms[1..])
  }

  lemma {:induction false} TotalConcat(a: seq<Message>, b: seq<Message>)
    ensures Total(a + b) == Total(a) + Total(b)
  {
    if a == [] {
      assert a + b == b;
    } else {
      assert (a + b)[1..] == a[1..] + b;
      TotalConcat(a[1..], b);
    }
  }

  lemma CloseAny(event: string, data: string, rest: seq<string>, delivered: seq<Message>,
                 decide: seq<Message> -> Verdict) returns (out: seq<Message>)
    requires NeverInterrupts(decide)
    ensures Deliver([""] + rest, false, event, data, delivered, decide)
         == Deliver(rest, false, "", "", delivered + out, decide)
    ensures Total(out) == |data|
  {
    assert ([""] + rest)[1..] == rest;
    out := if data == "" then [] else [Message(event, data)];
    assert data == "" ==> delivered + out == delivered;
    assert data != "" ==> out[1..] == [];
  }

  /** A printed message is read as at most as much data as it had, and as less if some line of it ends in a carriage
      return. */
  lemma {:induction false} ReadLossyOne(m: Message, rest: seq<string>, delivered: seq<Message>,
                                        decide: seq<Message> -> Verdict) returns (out: seq<Message>)
    requires Deliverable(m) && NeverInterrupts(decide)
    ensures Deliver(DropCRs(PrintLines(m)) + rest, false, "", "", delivered, decide)
         == Deliver(rest, false, "", "", delivered + out, decide)
    ensures Total(out) <= |m.data| && (!Recoverable(m) ==> Total(out) < |m.data|)
  {
    var lines := DropCRs(Split(m.data));
    DropCRsOfPrinted(m);
    DropCRsShorten(Split(m.data));
    UnsplitSplit(m.data);
    hide Split, DataLines, Deliver, PrintLines;
    var tail := DataLines(lines) + ([""] + rest);
    assert DropCRs(PrintLines(m)) + rest == Head(m) + tail;
    if m.event != "" {
      ReadEvent(m.event, tail, false, delivered, decide);
    } else {
      assert Head(m) + tail == tail;
    }
    var more := ReadAnyData(lines, [""] + rest, false, m.event, "", delivered, decide);
    out := CloseAny(m.event, more, rest, delivered, decide);
  }

  ghost predicate AllRecoverable(ms: seq<Message>) {
    forall k :: 0 <= k < |ms| ==> Recoverable(ms[k])
  }

  lemma {:induction false} ReadLossy(ms: seq<Message>, delivered: seq<Message>, decide: seq<Message> -> Verdict)
    returns (out: seq<Message>)
    requires AllDeliverable(ms) && NeverInterrupts(decide)
    ensures Deliver(DropCRs(PrintAll(ms)), false, "", "", delivered, decide) == (delivered + out, Done)
    ensures Total(out) <= Total(ms) && (!AllRecoverable(ms) ==> Total(out) < Total(ms))
    decreases |ms|
  {
    hide Deliverable, Recoverable, PrintLines, Deliver;
    out := [];
    if ms == [] {
      NothingLeft(delivered, decide);
      assert DropCRs(PrintAll(ms)) == [] && delivered + out == delivered;
    } else {
      var rest := PrintAll(ms[1..]);
      DropCRsConcat(PrintLines(ms[0]), rest);
      var first := ReadLossyOne(ms[0], DropCRs(rest), delivered, decide);
      var others := ReadLossy(ms[1..], delivered + first, decide);
      out := first + others;
      TotalConcat(first, others);
      assert delivered + first + others == delivered + out;
      if Recoverable(ms[0]) && AllRecoverable(ms[1..]) {
        forall k | 0 <= k < |ms| ensures Recoverable(ms[k]) {
          if k > 0 { assert ms[k] == ms[1..][k - 1]; }
        }
      }
    }
  }

  /** Printed messages are read back as they were, all of them and in order, exactly when each of them is
      recoverable. */
  lemma {:induction false} AllMessagesIff(ms: seq<Message>, decide: seq<Message> -> Verdict)
    requires NeverInterrupts(decide) && (AllDeliverable(ms) ==> Fits(PrintAll(ms)))
    ensures Read(Text(PrintAll(ms)), decide) == (ms, Done) <==> AllRecoverable(ms)
  {
    hide Deliver, Lines, Text, DropCRs, PrintAll, Split;
    if AllDeliverable(ms) {
      LinesOfText(PrintAll(ms));
      var out := ReadLossy(ms, [], decide);
      assert [] + out == out;
      if AllRecoverable(ms) {
        PrintedEndsClean(ms);
        ReadStream(ms, true, decide);
      }
    } else {
      DeliveredShape(Text(PrintAll(ms)), decide);
      assert AllRecoverable(ms) ==> AllDeliverable(ms);
    }
  }

  lemma {:induction false} PrintedEndsClean(ms: seq<Message>)
    requires AllRecoverable(ms)
    ensures DropCRs(PrintAll(ms)) == PrintAll(ms)
  {
    if ms != [] {
      var m, rest := ms[0], PrintAll(ms[1..]);
      PrintedEndsClean(ms[1..]);
      hide PrintAll, DataLines, Split;
      assert PrintAll(ms) == PrintLines(m) + rest;
      DropCRsConcat(PrintLines(m), rest);
      DropCRsOfPrinted(m);
      assert DropCRs(Split(m.data)) == Split(m.data);
      assert DropCRs(PrintLines(m)) == PrintLines(m);
    }
  }

  /** A printed message is read back as it was exactly when it is recoverable. */
  lemma OneMessageIff(m: Message, decide: seq<Message> -> Verdict)
    requires NeverInterrupts(decide) && (Deliverable(m) ==> Fits(PrintLines(m)))
    ensures Read(Text(PrintLines(m)), decide) == ([m], Done) <==> Recoverable(m)
  {
    assert PrintAll([m]) == PrintLines(m) by {
      assert [m][1..] == [] && PrintLines(m) + [] == PrintLines(m);
    }
    assert AllDeliverable([m]) ==> Deliverable([m][0]);
    assert AllRecoverable([m]) <==> Recoverable([m][0]);
    AllMessagesIff([m], decide);
  }

  // ------------------------------------------------------------------ what the receiver answers

  lemma ReadAnswered(m: Message, rest: seq<string>, tooLong: bool, delivered: seq<Message>,
                     decide: seq<Message> -> Verdict)
    requires Recoverable(m)
    ensures var all := delivered + [m];
      Deliver(PrintLines(m) + rest, tooLong, "", "", delivered, decide)
      == match decide(all)
         case Continue => Deliver(rest, tooLong, "", "", all, decide)
         case Stop => (all, Done)
         case Fail => (all, Failed)
  {
    assert PrintLines(m) + rest == OpenLines(m) + ([""] + rest);
    ReadOpen(m, [""] + rest, tooLong, delivered, decide);
    assert ([""] + rest)[1..] == rest;
  }

  ghost predicate GoesOn(delivered: seq<Message>, ms: seq<Message>, decide: seq<Message> -> Verdict) {
    forall k :: 0 < k <= |ms| ==> decide(delivered + ms[..k]) == Continue
  }

  lemma FirstGoesOn(delivered: seq<Message>, ms: seq<Message>, decide: seq<Message> -> Verdict)
    requires ms != [] && GoesOn(delivered, ms, decide)
    ensures decide(delivered + [ms[0]]) == Continue && GoesOn(delivered + [ms[0]], ms[1..], decide)
  {
    assert delivered + [ms[0]] == delivered + ms[..1];
    forall k | 0 < k <= |ms[1..]| ensures decide(delivered + [ms[0]] + ms[1..][..k]) == Continue {
      assert delivered + [ms[0]] + ms[1..][..k] == delivered + ms[..k + 1];
    }
  }

  lemma {:induction false} ReadWhileAnswered(ms: seq<Message>, rest: seq<string>, tooLong: bool,
                                             delivered: seq<Message>, decide: seq<Message> -> Verdict)
    requires AllRecoverable(ms) && GoesOn(delivered, ms, decide)
    ensures Deliver(PrintAll(ms) + rest, tooLong, "", "", delivered, decide)
         == Deliver(rest, tooLong, "", "", delivered + ms, decide)
    decreases |ms|
  {
    if ms == [] {
      assert PrintAll(ms) + rest == rest && delivered + ms == delivered;
    } else {
      hide Deliver, Recoverable, PrintLines, GoesOn;
      assert PrintAll(ms) + rest == PrintLines(ms[0]) + (PrintAll(ms[1..]) + rest);
      ReadAnswered(ms[0], PrintAll(ms[1..]) + rest, tooLong, delivered, decide);
      FirstGoesOn(delivered, ms, decide);
      ReadWhileAnswered(ms[1..], rest, tooLong, delivered + [ms[0]], decide);
      assert delivered + [ms[0]] + ms[1..] == delivered + ms;
    }
  }

  lemma {:induction false} PrintAllCut(a: seq<Message>, b: seq<Message>)
    ensures PrintAll(a + b) == PrintAll(a) + PrintAll(b)
  {
    hide PrintLines;
    if a == [] {
      assert a + b == b;
    } else {
      assert (a + b)[1..] == a[1..] + b;
      PrintAllCut(a[1..], b);
    }
  }

  lemma {:induction false} ReadToAnswer(before: seq<Message>, m: Message, rest: seq<string>,
                                        decide: seq<Message> -> Verdict)
    requires AllRecoverable(before) && Recoverable(m)
    requires GoesOn([], before, decide) && decide(before + [m]) != Continue
    ensures Deliver(PrintAll(before) + (PrintLines(m) + rest), false, "", "", [], decide)
         == (before + [m], if decide(before + [m]) == Stop then Done else Failed)
  {
    hide Deliver, Recoverable, PrintLines, PrintAll, GoesOn;
    ReadWhileAnswered(before, PrintLines(m) + rest, false, [], decide);
    assert [] + before == before;
    ReadAnswered(m, rest, false, before, decide);
  }

  lemma {:induction false} PrintedInThree(before: seq<Message>, m: Message, after: seq<Message>)
    ensures PrintAll(before + [m] + after) == PrintAll(before) + (PrintLines(m) + PrintAll(after))
  {
    hide PrintLines;
    PrintAllCut(before + [m], after);
    PrintAllCut(before, [m]);
    assert [m][1..] == [] && PrintAll([m]) == PrintLines(m);
  }

  /** The answer to the first message that is not answered with going on decides: nothing after it is delivered, and
      reading ends as stopped or as failed. */
  lemma {:induction false} FirstAnswerDecides(before: seq<Message>, m: Message, after: seq<Message>,
                                              decide: seq<Message> -> Verdict)
    requires AllRecoverable(before + [m] + after) && Fits(PrintAll(before + [m] + after))
    requires GoesOn([], before, decide) && decide(before + [m]) != Continue
    ensures var (delivered, ending) := Read(Text(PrintAll(before + [m] + after)), decide);
      delivered == before + [m] && ending == if decide(before + [m]) == Stop then Done else Failed
  {
    var all := before + [m] + after;
    assert AllRecoverable(before) && all[|before|] == m by {
      forall k | 0 <= k < |before| ensures Recoverable(before[k]) { assert all[k] == before[k]; }
    }
    hide Deliver, Recoverable, PrintLines, PrintAll, GoesOn, Fits, Text, Lines, DropCRs;
    LinesOfText(PrintAll(all));
    PrintedEndsClean(all);
    PrintedInThree(before, m, after);
    ReadToAnswer(before, m, PrintAll(after), decide);
  }

  // ------------------------------------------------------------------ lines as they arrive

  /** A line of 4 MiB, whatever it holds, ends reading; a shorter comment does not. */
  lemma {:induction false} LongLine(line: string, rest: string, decide: seq<Message> -> Verdict)
    requires '\n' !in line && line != "" && line[0] == ':'
    ensures Read(line + ("\n" + rest), decide) == if |line| >= 4194304 then ([], TooLong) else Read(rest, decide)
  {
    hide HasPrefix;
    var body := line + ("\n" + rest);
    LineLengthOf(line, "\n" + rest);
    assert body[..|line|] == line && body[|line| + 1..] == rest;
    if |line| < LIMIT {
      var kept := DropCR(line);
      assert kept != "" && kept[0] == ':';
      CommentHasNoEffect(kept, Lines(rest).0, Lines(rest).1, decide);
    }
  }

  lemma CommentHasNoEffect(line: string, rest: seq<string>, tooLong: bool, decide: seq<Message> -> Verdict)
    requires line != "" && line[0] == ':'
    ensures Deliver([line] + rest, tooLong, "", "", [], decide) == Deliver(rest, tooLong, "", "", [], decide)
  {
    assert ([line] + rest)[1..] == rest;
  }

  lemma {:induction false} LineBefore(line: string, rest: string)
    requires '\n' !in line && |line| < LIMIT
    ensures Lines(line + ("\n" + rest)) == ([DropCR(line)] + Lines(rest).0, Lines(rest).1)
  {
    hide DropCR, LineLength;
    var s := line + ("\n" + rest);
    LineLengthOf(line, "\n" + rest);
    assert s[..|line|] == line && s[|line| + 1..] == rest;
  }

  lemma {:induction false} LinesBefore(lines: seq<string>, rest: string)
    requires Fits(lines)
    ensures Lines(Text(lines) + rest) == (DropCRs(lines) + Lines(rest).0, Lines(rest).1)
  {
    hide Lines, DropCR;
    if lines == [] {
      assert Text(lines) + rest == rest && DropCRs(lines) + Lines(rest).0 == Lines(rest).0;
    } else {
      var more := Text(lines[1..]) + rest;
      assert Text(lines) + rest == lines[0] + ("\n" + more);
      LineBefore(lines[0], more);
      LinesBefore(lines[1..], rest);
      assert DropCRs(lines) == [DropCR(lines[0])] + DropCRs(lines[1..]);
      assert [DropCR(lines[0])] + (DropCRs(lines[1..]) + Lines(rest).0) == DropCRs(lines) + Lines(rest).0;
    }
  }

  /** The lines of messages of which the last lacks its blank line: they fit and end in no carriage return. */
  lemma {:induction false} BrokenOff(ms: seq<Message>, m: Message)
    requires AllRecoverable(ms + [m]) && Fits(PrintAll(ms + [m]))
    ensures Fits(PrintAll(ms) + OpenLines(m)) && DropCRs(PrintAll(ms) + OpenLines(m)) == PrintAll(ms) + OpenLines(m)
  {
    var lines := PrintAll(ms) + OpenLines(m);
    PrintAllCut(ms, [m]);
    PrintedEndsClean(ms + [m]);
    assert [m][1..] == [] && PrintAll(ms + [m]) == lines + [""];
    hide PrintAll, OpenLines, DropCR, Recoverable;
    forall k | 0 <= k < |lines| ensures '\n' !in lines[k] && |lines[k]| < LIMIT && DropCR(lines[k]) == lines[k] {
      assert lines[k] == PrintAll(ms + [m])[k];
    }
  }

  /** A last message without its blank line is delivered as well, and only a refusal of it counts. */
  lemma {:induction false} LastAnswerCounts(before: seq<Message>, m: Message, decide: seq<Message> -> Verdict)
    requires AllRecoverable(before + [m]) && GoesOn([], before, decide) && Fits(PrintAll(before + [m]))
    ensures Read(Text(PrintAll(before) + OpenLines(m)), decide)
         == (before + [m], if decide(before + [m]) == Fail then Failed else Done)
  {
    var lines := PrintAll(before) + OpenLines(m);
    assert AllRecoverable(before) && (before + [m])[|before|] == m by {
      forall k | 0 <= k < |before| ensures Recoverable(before[k]) { assert (before + [m])[k] == before[k]; }
    }
    assert m.data != "";
    BrokenOff(before, m);
    hide Deliver, Recoverable, PrintAll, OpenLines, GoesOn, Text, DropCRs, Lines;
    LinesOfText(lines);
    ReadWhileAnswered(before, OpenLines(m), false, [], decide);
    assert [] + before == before && OpenLines(m) + [] == OpenLines(m);
    ReadOpen(m, [], false, before, decide);
    AnsweredAtTheEnd(m, before, decide);
  }

  lemma AnsweredAtTheEnd(m: Message, delivered: seq<Message>, decide: seq<Message> -> Verdict)
    requires m.data != ""
    ensures Deliver([], false, m.event, m.data, delivered, decide)
         == (delivered + [m], if decide(delivered + [m]) == Fail then Failed else Done)
  {
  }

  lemma {:induction false} ReadBrokenOff(ms: seq<Message>, m: Message, decide: seq<Message> -> Verdict)
    requires AllRecoverable(ms) && Recoverable(m) && GoesOn([], ms, decide)
    ensures Deliver(PrintAll(ms) + OpenLines(m), true, "", "", [], decide) == (ms, TooLong)
  {
    hide Deliver, Recoverable, PrintLines, PrintAll, OpenLines, GoesOn;
    ReadWhileAnswered(ms, OpenLines(m), true, [], decide);
    assert [] + ms == ms && OpenLines(m) + [] == OpenLines(m);
    ReadOpen(m, [], true, ms, decide);
    CutShort(m, ms, decide);
  }

  /** What was delivered before a line of 4 MiB stays delivered, and the message it breaks into is not. */
  lemma {:induction false} LongLineEndsReading(ms: seq<Message>, m: Message, line: string, rest: string,
                                               decide: seq<Message> -> Verdict)
    requires AllRecoverable(ms + [m]) && GoesOn([], ms, decide) && Fits(PrintAll(ms + [m]))
    requires '\n' !in line && |line| >= 4194304 && (rest == "" || rest[0] == '\n')
    ensures Read(Text(PrintAll(ms) + OpenLines(m)) + (line + rest), decide) == (ms, TooLong)
  {
    var lines := PrintAll(ms) + OpenLines(m);
    assert AllRecoverable(ms) && (ms + [m])[|ms|] == m by {
      forall k | 0 <= k < |ms| ensures Recoverable(ms[k]) { assert (ms + [m])[k] == ms[k]; }
    }
    BrokenOff(ms, m);
    hide Deliver, Recoverable, PrintAll, OpenLines, GoesOn, Text, DropCR, DropCRs;
    LinesBefore(lines, line + rest);
    LineLengthOf(line, rest);
    assert lines + [] == lines;
    ReadBrokenOff(ms, m, decide);
  }

  lemma CutShort(m: Message, delivered: seq<Message>, decide: seq<Message> -> Verdict)
    ensures Deliver([], true, m.event, m.data, delivered, decide) == (delivered, TooLong)
  {
  }

  function WithCRs(lines: seq<string>): (r: seq<string>)
    ensures |r| == |lines| && forall k :: 0 <= k < |r| ==> r[k] == lines[k] + "\r"
  {
    seq(|lines|, k requires 0 <= k < |lines| => lines[k] + "\r")
  }

  /** Lines may end in a carriage return and a line feed as well. */
  lemma {:induction false} EitherLineEnd(lines: seq<string>, decide: seq<Message> -> Verdict)
    requires Fits(WithCRs(lines)) && forall k :: 0 <= k < |lines| ==> !EndsInCR(lines[k])
    ensures Read(Text(WithCRs(lines)), decide) == Read(Text(lines), decide)
  {
    hide Deliver, Text, Lines;
    LinesOfText(WithCRs(lines));
    forall k | 0 <= k < |lines|
      ensures '\n' !in lines[k] && |lines[k]| < LIMIT && DropCR(WithCRs(lines)[k]) == lines[k]
    {
      assert WithCRs(lines)[k] == lines[k] + "\r";
      assert forall c :: c in lines[k] ==> c in WithCRs(lines)[k];
    }
    LinesOfText(lines);
    assert DropCRs(WithCRs(lines)) == lines && DropCRs(lines) == lines;
  }

  /** One line with and the other without a space before the data. */
  ghost predicate SameButForSpace(line: string, other: string) {
    || line == other
    || exists data: string ::
         (data == "" || data[0] != ' ') && line == DATA + data && other == DATA + " " + data
  }

  lemma {:induction false} SpaceIsOptional(lines: seq<string>, others: seq<string>, tooLong: bool, event: string,
                                           data: string, delivered: seq<Message>, decide: seq<Message> -> Verdict)
    requires |lines| == |others| && forall k :: 0 <= k < |lines| ==> SameButForSpace(lines[k], others[k])
    ensures Deliver(lines, tooLong, event, data, delivered, decide)
         == Deliver(others, tooLong, event, data, delivered, decide)
    decreases |lines|
  {
    if lines != [] {
      var line, rest := lines[0], lines[1..];
      if line == "" {
        SpaceIsOptional(rest, others[1..], tooLong, "", "", delivered, decide);
        SpaceIsOptional(rest, others[1..], tooLong, "", "", delivered + [Message(event, data)], decide);
      } else if HasPrefix(line, DATA) {
        SameData(line, others[0]);
        SpaceIsOptional(rest, others[1..], tooLong, event, AddData(data, line), delivered, decide);
      } else {
        SpaceIsOptional(rest, others[1..], tooLong, TrimSpace(if HasPrefix(line, EVENT) then line[|EVENT|..] else ""),
                        data, delivered, decide);
        SpaceIsOptional(rest, others[1..], tooLong, event, data, delivered, decide);
      }
    }
  }

  lemma {:induction false} SameData(line: string, other: string)
    requires SameButForSpace(line, other) && HasPrefix(line, DATA)
    ensures other != "" && !IsComment(other) && !HasPrefix(other, EVENT)
    ensures HasPrefix(other, DATA) && DataOf(other) == DataOf(line)
  {
    if line == other {
      assert line[0] == 'd';
    } else {
      var data: string :| (data == "" || data[0] != ' ') && line == DATA + data && other == DATA + " " + data;
      DataOfPrinted(data);
      assert line[|DATA|..] == data;
    }
  }

  /** A name without data is forgotten at the blank line, and of two names the later counts. */
  lemma {:induction false} NamesAlone(name: string, later: string, rest: seq<string>, tooLong: bool,
                                      delivered: seq<Message>, decide: seq<Message> -> Verdict)
    ensures Deliver([EVENT + name, ""] + rest, tooLong, "", "", delivered, decide)
         == Deliver(rest, tooLong, "", "", delivered, decide)
    ensures Deliver([EVENT + name, EVENT + later] + rest, tooLong, "", "", delivered, decide)
         == Deliver([EVENT + later] + rest, tooLong, "", "", delivered, decide)
  {
    hide TrimSpace;
    var first := EVENT + name;
    assert first[0] == 'e' && (EVENT + later)[0] == 'e';
    assert ([first, ""] + rest)[1..] == [""] + rest && ([""] + rest)[1..] == rest;
    assert ([first, EVENT + later] + rest)[1..] == [EVENT + later] + rest && ([EVENT + later] + rest)[1..] == rest;
  }

  ghost predicate Blank(s: string) {
    forall c :: c in s ==> c in " \t\r\U{000B}\U{000C}\U{0085}\U{00A0}"
  }

  /** White space around a name is not part of it, and white space within it is. */
  lemma {:induction false} PaddedName(before: string, name: string, after: string)
    requires Blank(before) && Blank(after)
    requires name != "" && '!' <= name[0] <= '~' && '!' <= name[|name| - 1] <= '~'
    ensures TrimSpace(before + (name + after)) == name
  {
    hide IsSpace;
    TrimPadding(before, name + after);
    TrimPaddingRight(name, after);
  }

  lemma {:induction false} TrimPadding(before: string, rest: string)
    requires Blank(before) && rest != "" && '!' <= rest[0] <= '~'
    ensures TrimLeft(before + rest) == rest
  {
    if before == "" {
      assert before + rest == rest;
    } else {
      assert before[0] in before;
      assert (before + rest)[1..] == before[1..] + rest;
      TrimPadding(before[1..], rest);
    }
  }

  lemma {:induction false} TrimPaddingRight(name: string, after: string)
    requires Blank(after) && name != "" && '!' <= name[|name| - 1] <= '~'
    ensures TrimRight(name + after) == name
  {
    var all := name + after;
    if after == "" {
      assert all == name;
    } else {
      assert after[|after| - 1] in after;
      assert all[..|all| - 1] == name + after[..|after| - 1];
      TrimPaddingRight(name, after[..|after| - 1]);
    }
  }
}
