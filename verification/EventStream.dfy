/** The reader of a text/event-stream body (internal/claude/stream.go, readSSE): what the
    bytes of a stream, whole or cut anywhere, are read as. The reader looks at no bytes but
    line feed, carriage return, colon and space.
 */
module EventStream {
  import opened Lines
  import opened Wrappers

  const MAX_EVENT_LINE := 8 * 1024 * 1024

  /** One event: its "event:" line, if any, and its "data:" lines joined by line feeds. */
  datatype SseEvent = SseEvent(name: Bytes, data: Bytes)

  /** The event being collected. */
  datatype Pending = Pending(name: Bytes, data: seq<Bytes>)

  const NOTHING := Pending("", [])

  /** What a body is read as: the events up to its end, or up to a line over the limit. */
  datatype Reading = Reading(events: seq<SseEvent>, tooLong: bool)

  function Join(parts: seq<Bytes>): Bytes {
    if parts == [] then ""
    else if |parts| == 1 then parts[0]
    else parts[0] + "\n" + Join(parts[1..])
  }

  /** What ending the event now delivers: an event without data is none. */
  function Flush(p: Pending): seq<SseEvent> {
    if p.data == [] then [] else [SseEvent(p.name, Join(p.data))]
  }

  /** A line that is not blank: a comment, a field the reader knows, or another. */
  function Field(p: Pending, line: Bytes): Pending
    requires line != []
  {
    if line[0] == ':' then p
    else
      var i := IndexOf(line, ':');
      var field := line[..i];
      var rest := if i < |line| then line[i + 1..] else "";
      var value := if rest != [] && rest[0] == ' ' then rest[1..] else rest;
      if field == "event" then p.(name := value)
      else if field == "data" then p.(data := p.data + [value])
      else p
  }

  function Read(input: Bytes, p: Pending): Reading
    decreases |input|, 0
  {
    var n := IndexOf(input, '\n');
    if n == |input| then
      if n > MAX_EVENT_LINE then Reading([], true) else Reading(Flush(p), false)
    else if n + 1 > MAX_EVENT_LINE then Reading([], true)
    else AfterLine(p, TrimRight(input[..n + 1]), input[n + 1..])
  }

  function AfterLine(p: Pending, line: Bytes, rest: Bytes): Reading
    decreases |rest|, 1
  {
    if line == [] then
      var r := Read(rest, NOTHING);
      Reading(Flush(p) + r.events, r.tooLong)
    else
      Read(rest, Field(p, line))
  }

  // ----- Lines -----

  function Eol(cr: bool): Bytes {
    if cr then "\r\n" else "\n"
  }

  /** A line the writer may send: no line feed inside, no carriage return at its end. */
  predicate ValidLine(line: Bytes) {
    && '\n' !in line
    && (line == [] || line[|line| - 1] != '\r')
    && |line| + 2 <= MAX_EVENT_LINE
  }

  lemma TrimsEol(line: Bytes, cr: bool)
    requires ValidLine(line)
    ensures TrimRight(line + Eol(cr)) == line
  {
    var eol := Eol(cr);
    assert (line + eol)[..|line + eol| - 1] == line + eol[..|eol| - 1];
    if cr {
      assert (line + "\r")[..|line|] == line;
      assert TrimRight(line + "\r") == TrimRight(line);
    } else {
      assert line + eol[..0] == line;
    }
    assert TrimRight(line) == line;
  }

  lemma FirstLine(line: Bytes, cr: bool, rest: Bytes)
    requires ValidLine(line)
    ensures var input := line + Eol(cr) + rest;
            var n := |line| + |Eol(cr)| - 1;
            && IndexOf(input, '\n') == n
            && input[..n + 1] == line + Eol(cr)
            && input[n + 1..] == rest
  {
    var input := line + Eol(cr) + rest;
    var n := |line| + |Eol(cr)| - 1;
    assert input[n] == '\n';
    assert forall j :: 0 <= j < n ==> input[j] != '\n';
  }

  /** A whole line is read as its text. */
  lemma ReadsLine(line: Bytes, cr: bool, rest: Bytes, p: Pending)
    requires ValidLine(line)
    ensures Read(line + Eol(cr) + rest, p) == AfterLine(p, line, rest)
  {
    FirstLine(line, cr, rest);
    TrimsEol(line, cr);
  }

  /** A line cut before its line feed is dropped; what was complete is delivered. */
  lemma CutLineIsDropped(line: Bytes, cr: bool, n: nat, p: Pending)
    requires ValidLine(line) && n < |line + Eol(cr)|
    ensures Read((line + Eol(cr))[..n], p) == Reading(Flush(p), false)
  {
    var input := (line + Eol(cr))[..n];
    assert forall j :: 0 <= j < n ==> input[j] != '\n';
  }

  // ----- Whole events -----

  /** What a server sends: an event of at most a name line and one data line, or a
      comment line such as a ping. */
  datatype Frame =
    | Event(name: Option<Bytes>, data: Bytes, crName: bool, crData: bool, crBlank: bool)
    | Comment(text: Bytes, cr: bool)

  function NameLine(name: Bytes): Bytes {
    "event: " + name
  }

  function DataLine(data: Bytes): Bytes {
    "data: " + data
  }

  predicate ValidFrame(f: Frame) {
    match f
    case Event(name, data, _, _, _) =>
      ValidLine(DataLine(data)) && (name.Some? ==> ValidLine(NameLine(name.value)))
    case Comment(text, _) => ValidLine(":" + text)
  }

  function NamePart(f: Frame): Bytes
    requires f.Event?
  {
    if f.name.Some? then NameLine(f.name.value) + Eol(f.crName) else ""
  }

  function Render(f: Frame): Bytes {
    match f
    case Event(_, data, _, crData, crBlank) => NamePart(f) + (DataLine(data) + Eol(crData) + Eol(crBlank))
    case Comment(text, cr) => ":" + text + Eol(cr)
  }

  function RenderAll(fs: seq<Frame>): Bytes {
    if fs == [] then "" else Render(fs[0]) + RenderAll(fs[1..])
  }

  function EventOf(f: Frame): seq<SseEvent> {
    match f
    case Event(name, data, _, _, _) => [SseEvent(if name.Some? then name.value else "", data)]
    case Comment(_, _) => []
  }

  function EventsOf(fs: seq<Frame>): seq<SseEvent> {
    if fs == [] then [] else EventOf(fs[0]) + EventsOf(fs[1..])
  }

  predicate ValidFrames(fs: seq<Frame>) {
    forall i :: 0 <= i < |fs| ==> ValidFrame(fs[i])
  }

  lemma ColonAt(field: Bytes, value: Bytes)
    requires ':' !in field
    ensures IndexOf(field + ":" + value, ':') == |field|
  {
    var s := field + ":" + value;
    assert s[|field|] == ':';
    assert forall j :: 0 <= j < |field| ==> s[j] != ':';
  }

  lemma FieldsAreRead(p: Pending, value: Bytes)
    ensures Field(p, NameLine(value)) == p.(name := value)
    ensures Field(p, DataLine(value)) == p.(data := p.data + [value])
  {
    ColonAt("event", " " + value);
    assert NameLine(value) == "event" + ":" + (" " + value);
    assert NameLine(value)[..5] == "event" && NameLine(value)[6..] == " " + value;
    assert (" " + value)[1..] == value;
    ColonAt("data", " " + value);
    assert DataLine(value) == "data" + ":" + (" " + value);
    assert DataLine(value)[..4] == "data" && DataLine(value)[5..] == " " + value;
  }

  /** The event's fields after its name line. */
  function Named(f: Frame): Pending
    requires f.Event?
  {
    if f.name.Some? then Pending(f.name.value, []) else NOTHING
  }

  lemma ReadsName(f: Frame, rest: Bytes)
    requires f.Event? && ValidFrame(f)
    ensures Read(NamePart(f) + rest, NOTHING) == Read(rest, Named(f))
  {
    if f.name.Some? {
      ReadsLine(NameLine(f.name.value), f.crName, rest, NOTHING);
      FieldsAreRead(NOTHING, f.name.value);
    } else {
      assert NamePart(f) + rest == rest;
    }
  }

  lemma ReadsData(f: Frame, rest: Bytes)
    requires f.Event? && ValidFrame(f)
    ensures Read(DataLine(f.data) + Eol(f.crData) + rest, Named(f))
         == Read(rest, Named(f).(data := [f.data]))
  {
    var line, p := DataLine(f.data), Named(f);
    ReadsLine(line, f.crData, rest, p);
    FieldsAreRead(p, f.data);
    assert p.data + [f.data] == [f.data];
    assert AfterLine(p, line, rest) == Read(rest, Field(p, line));
  }

  lemma ReadsBlank(f: Frame, rest: Bytes)
    requires f.Event?
    ensures var r := Read(rest, NOTHING);
            Read(Eol(f.crBlank) + rest, Named(f).(data := [f.data])) == Reading(EventOf(f) + r.events, r.tooLong)
  {
    var p := Named(f).(data := [f.data]);
    ReadsLine("", f.crBlank, rest, p);
    assert "" + Eol(f.crBlank) + rest == Eol(f.crBlank) + rest;
    assert Flush(p) == EventOf(f);
  }

  lemma ReadsComment(f: Frame, rest: Bytes)
    requires f.Comment? && ValidFrame(f)
    ensures Read(Render(f) + rest, NOTHING) == Read(rest, NOTHING)
  {
    ReadsLine(":" + f.text, f.cr, rest, NOTHING);
  }

  /** A whole frame delivers its event. */
  lemma ReadsFrame(f: Frame, rest: Bytes)
    requires ValidFrame(f)
    ensures var r := Read(rest, NOTHING);
            Read(Render(f) + rest, NOTHING) == Reading(EventOf(f) + r.events, r.tooLong)
  {
    match f
    case Comment(text, cr) =>
      ReadsComment(f, rest);
      assert [] + Read(rest, NOTHING).events == Read(rest, NOTHING).events;
    case Event(_, data, _, crData, crBlank) =>
      var blank := Eol(crBlank) + rest;
      var body := DataLine(data) + Eol(crData) + blank;
      assert Render(f) + rest == NamePart(f) + body;
      ReadsName(f, body);
      ReadsData(f, blank);
      ReadsBlank(f, rest);
  }

  /** The three places an event can be cut. */
  lemma CutInName(f: Frame, n: nat)
    requires f.Event? && ValidFrame(f) && n < |NamePart(f)|
    ensures Read(Render(f)[..n], NOTHING) == Reading([], false)
  {
    assert Render(f)[..n] == NamePart(f)[..n];
    CutLineIsDropped(NameLine(f.name.value), f.crName, n, NOTHING);
  }

  lemma CutInData(f: Frame, n: nat)
    requires f.Event? && ValidFrame(f) && n < |DataLine(f.data) + Eol(f.crData)|
    ensures Read(NamePart(f) + (DataLine(f.data) + Eol(f.crData))[..n], NOTHING) == Reading([], false)
  {
    ReadsName(f, (DataLine(f.data) + Eol(f.crData))[..n]);
    CutLineIsDropped(DataLine(f.data), f.crData, n, Named(f));
  }

  lemma CutInBlank(f: Frame, n: nat)
    requires f.Event? && ValidFrame(f) && n < |Eol(f.crBlank)|
    ensures Read(NamePart(f) + (DataLine(f.data) + Eol(f.crData) + Eol(f.crBlank)[..n]), NOTHING)
         == Reading(EventOf(f), false)
  {
    var cut := Eol(f.crBlank)[..n];
    var p := Named(f).(data := [f.data]);
    ReadsName(f, DataLine(f.data) + Eol(f.crData) + cut);
    ReadsData(f, cut);
    assert "" + Eol(f.crBlank) == Eol(f.crBlank);
    CutLineIsDropped("", f.crBlank, n, p);
    assert Flush(p) == EventOf(f);
  }

  lemma CutJoin(a: Bytes, b: Bytes, n: nat)
    requires n <= |a| + |b|
    ensures (a + b)[..n] == if n < |a| then a[..n] else a + b[..n - |a|]
  {
  }

  /** A frame cut short delivers its event or nothing: the event once its data line is
      there in full. */
  lemma CutFrame(f: Frame, n: nat)
    requires ValidFrame(f) && n < |Render(f)|
    ensures Read(Render(f)[..n], NOTHING) in {Reading([], false), Reading(EventOf(f), false)}
  {
    match f
    case Comment(text, cr) =>
      CutLineIsDropped(":" + text, cr, n, NOTHING);
    case Event(_, data, _, crData, crBlank) =>
      CutEvent(f, n, NamePart(f), DataLine(data) + Eol(crData), Eol(crBlank));
  }

  lemma CutEvent(f: Frame, n: nat, head: Bytes, line: Bytes, blank: Bytes)
    requires f.Event? && ValidFrame(f) && n < |Render(f)|
    requires head == NamePart(f) && line == DataLine(f.data) + Eol(f.crData) && blank == Eol(f.crBlank)
    ensures Read(Render(f)[..n], NOTHING) in {Reading([], false), Reading(EventOf(f), false)}
  {
    hide Read, EventOf, ValidFrame, NamePart, DataLine, Eol;
    assert Render(f) == head + (line + blank);
    CutJoin(head, line + blank, n);
    if n < |head| {
      CutInName(f, n);
    } else {
      var m := n - |head|;
      CutJoin(line, blank, m);
      if m < |line| {
        CutInData(f, m);
      } else {
        CutInBlank(f, m - |line|);
      }
    }
  }

  lemma CutInFirst(f: Frame, events: seq<SseEvent>, n: nat) returns (k: nat)
    requires ValidFrame(f) && n < |Render(f)|
    ensures k <= |EventOf(f)| && Read(Render(f)[..n], NOTHING) == Reading((EventOf(f) + events)[..k], false)
  {
    hide Read, Render, EventOf, ValidFrame;
    CutFrame(f, n);
    k := if Read(Render(f)[..n], NOTHING) == Reading([], false) then 0 else |EventOf(f)|;
    assert (EventOf(f) + events)[..|EventOf(f)|] == EventOf(f) && (EventOf(f) + events)[..0] == [];
  }

  lemma CutPastFirst(f: Frame, cut: Bytes, events: seq<SseEvent>, j: nat)
    requires ValidFrame(f) && j <= |events| && Read(cut, NOTHING) == Reading(events[..j], false)
    ensures Read(Render(f) + cut, NOTHING) == Reading((EventOf(f) + events)[..|EventOf(f)| + j], false)
  {
    hide Read, Render, EventOf, ValidFrame;
    ReadsFrame(f, cut);
    assert (EventOf(f) + events)[..|EventOf(f)| + j] == EventOf(f) + events[..j];
  }

  /** Cut anywhere, a stream is read as its first so many events, all of them whole. */
  lemma {:induction false} CutStreamIsPrefix(fs: seq<Frame>, n: nat) returns (k: nat)
    requires ValidFrames(fs) && n <= |RenderAll(fs)|
    ensures k <= |EventsOf(fs)|
    ensures Read(RenderAll(fs)[..n], NOTHING) == Reading(EventsOf(fs)[..k], false)
    ensures n == |RenderAll(fs)| ==> k == |EventsOf(fs)|
    decreases |fs|
  {
    hide Read, Render, EventOf, ValidFrame;
    if fs == [] {
      k := 0;
      NothingRead();
      assert RenderAll(fs)[..n] == "";
    } else {
      var f, rest := fs[0], RenderAll(fs[1..]);
      CutJoin(Render(f), rest, n);
      if n < |Render(f)| {
        k := CutInFirst(f, EventsOf(fs[1..]), n);
      } else {
        var j := CutStreamIsPrefix(fs[1..], n - |Render(f)|);
        k := |EventOf(f)| + j;
        CutPastFirst(f, rest[..n - |Render(f)|], EventsOf(fs[1..]), j);
      }
    }
  }

  lemma NothingRead()
    ensures Read("", NOTHING) == Reading([], false)
  {
  }
}
