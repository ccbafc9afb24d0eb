/**
 * Server-Sent-Events framing (section 9.2 of the WHATWG HTML Living Standard).
 * The server writes one frame per event (server.js `sendSSEMessage`); the
 * client-side interpretation of section 9.2.6 is given here as the partner
 * that reads frames back, restricted to line-feed line endings, which is all
 * the server emits, over text free of carriage returns, which the standard
 * would also read as line ends.
 */
module Sse {

  import opened Wrappers
  import opened Text

  /** The frame `sendSSEMessage` writes: an event line, a data line and a blank line. */
  function Frame(event: string, data: string): (f: string)
    ensures |f| == |event| + |data| + 16
    ensures f[|f| - 2..] == "\n\n"
  {
    "event: " + event + "\n" + "data: " + data + "\n\n"
  }

  /** An event as the client's EventSource dispatches it. */
  datatype Message = Message(eventType: string, data: string)

  /** What `Frame` can carry without being misread: a named type and no line feed or carriage return. */
  predicate Framable(m: Message) {
    && m.eventType != ""
    && '\n' !in m.eventType && '\r' !in m.eventType
    && '\n' !in m.data && '\r' !in m.data
  }

  /** The frames of a series of events, written one after the other on one stream. */
  function Stream(ms: seq<Message>): string {
    if |ms| == 0 then "" else Frame(ms[0].eventType, ms[0].data) + Stream(ms[1..])
  }

  /** The event type and data buffers of the standard's parser. */
  datatype Buffers = Buffers(eventType: string, data: string)

  const Empty := Buffers("", "")

  /** A leading space of a field value is dropped. */
  function DropSpace(v: string): string {
    if |v| > 0 && v[0] == ' ' then v[1..] else v
  }

  /** A line's field name (up to the first colon) and value (after it); a line with no colon is all name. */
  function Field(line: string): (string, string) {
    match IndexOf(line, ':')
    case None => (line, "")
    case Some(k) => (line[..k], DropSpace(line[k + 1..]))
  }

  /** Processing complete lines: a blank line dispatches, a colon-led line is a comment, other lines set fields. */
  function Interpret(lines: seq<string>, b: Buffers): seq<Message>
    decreases |lines|
  {
    if |lines| == 0 then []
    else if lines[0] == "" then
      var dispatched :=
        if b.data == "" then []
        else [Message(if b.eventType == "" then "message" else b.eventType, b.data[..|b.data| - 1])];
      dispatched + Interpret(lines[1..], Empty)
    else if lines[0][0] == ':' then Interpret(lines[1..], b)
    else
      var (name, value) := Field(lines[0]);
      var b' :=
        if name == "event" then b.(eventType := value)
        else if name == "data" then b.(data := b.data + value + "\n")
        else b;
      Interpret(lines[1..], b')
  }

  /** The events a client reads from a stream; text after the last line feed is an unfinished line. */
  function Parse(stream: string): seq<Message> {
    var lines := Split(stream, '\n');
    Interpret(lines[..|lines| - 1], Empty)
  }

  /** The lines of one frame. */
  lemma {:induction false} FrameLines(m: Message, rest: string)
    requires Framable(m)
    ensures Split(Frame(m.eventType, m.data) + rest, '\n')
         == ["event: " + m.eventType, "data: " + m.data, ""] + Split(rest, '\n')
  {
    var l1, l2 := "event: " + m.eventType, "data: " + m.data;
    assert '\n' !in l1 && '\n' !in l2;
    SplitWithoutSeparator(l1, '\n');
    SplitWithoutSeparator(l2, '\n');
    var third := "" + ['\n'] + rest;
    var second := l2 + ['\n'] + third;
    assert Frame(m.eventType, m.data) + rest == l1 + ['\n'] + second;
    SplitAtSeparator(l1, '\n', second);
    SplitAtSeparator(l2, '\n', third);
    SplitAtSeparator("", '\n', rest);
    assert [l1] + ([l2] + ([""] + Split(rest, '\n'))) == [l1, l2, ""] + Split(rest, '\n');
  }

  /** An `event:` line sets the event type buffer. */
  lemma EventLine(e: string, more: seq<string>, b: Buffers)
    ensures Interpret(["event: " + e] + more, b) == Interpret(more, b.(eventType := e))
  {
    var line := "event: " + e;
    IndexAfterPrefix("event", ':', " " + e);
    assert line == "event" + [':'] + (" " + e);
    assert line[..5] == "event" && line[6..] == " " + e;
    assert Field(line) == ("event", e);
    assert (["event: " + e] + more)[1..] == more;
  }

  /** A `data:` line appends its value and a line feed to the data buffer. */
  lemma DataLine(d: string, more: seq<string>, b: Buffers)
    ensures Interpret(["data: " + d] + more, b) == Interpret(more, b.(data := b.data + d + "\n"))
  {
    var line := "data: " + d;
    IndexAfterPrefix("data", ':', " " + d);
    assert line == "data" + [':'] + (" " + d);
    assert line[..4] == "data" && line[5..] == " " + d;
    assert Field(line) == ("data", d);
    assert (["data: " + d] + more)[1..] == more;
  }

  /** A blank line dispatches the buffered event and empties the buffers. */
  lemma BlankLine(more: seq<string>, b: Buffers)
    requires b.data != ""
    ensures Interpret([""] + more, b)
         == [Message(if b.eventType == "" then "message" else b.eventType, b.data[..|b.data| - 1])]
            + Interpret(more, Empty)
  {
    assert ([""] + more)[1..] == more;
  }

  /** Reading the three lines of one frame dispatches exactly its event. */
  lemma FrameInterpreted(m: Message, more: seq<string>)
    requires Framable(m)
    ensures Interpret(["event: " + m.eventType, "data: " + m.data, ""] + more, Empty)
         == [m] + Interpret(more, Empty)
  {
    var l1, l2 := "event: " + m.eventType, "data: " + m.data;
    var afterData := [""] + more;
    var afterEvent := [l2] + afterData;
    assert [l1, l2, ""] + more == [l1] + afterEvent;
    var typed := Buffers(m.eventType, "");
    var filled := Buffers(m.eventType, m.data + "\n");
    assert Empty.(eventType := m.eventType) == typed;
    assert "" + m.data == m.data;
    assert typed.(data := typed.data + m.data + "\n") == filled;
    EventLine(m.eventType, afterEvent, Empty);
    DataLine(m.data, afterData, typed);
    BlankLine(more, filled);
    assert filled.data[..|filled.data| - 1] == m.data;
  }

  /** A client reads back exactly the events the server framed, in order. */
  lemma {:induction false} ParseStream(ms: seq<Message>)
    requires forall i :: 0 <= i < |ms| ==> Framable(ms[i])
    ensures Parse(Stream(ms)) == ms
  {
    if |ms| > 0 {
      var m, rest := ms[0], Stream(ms[1..]);
      ParseStream(ms[1..]);
      FrameLines(m, rest);
      var tail := Split(rest, '\n');
      var lines := ["event: " + m.eventType, "data: " + m.data, ""] + tail;
      assert lines[..|lines| - 1] == ["event: " + m.eventType, "data: " + m.data, ""] + tail[..|tail| - 1];
      FrameInterpreted(m, tail[..|tail| - 1]);
      assert [m] + ms[1..] == ms;
    }
  }

  /** One frame is read back as its event. */
  lemma ParseFrame(event: string, data: string)
    requires Framable(Message(event, data))
    ensures Parse(Frame(event, data)) == [Message(event, data)]
  {
    var ms := [Message(event, data)];
    assert Stream(ms[1..]) == "";
    assert Stream(ms) == Frame(event, data);
    ParseStream(ms);
  }
}
