/** The message a stream's events add up to (internal/claude/stream.go, accumulator and
    parseStream). The JSON of an event is decoded by two functions of its bytes: one reads
    the type alone, the other the fields.
 */
module ClaudeMessage {
  import opened Wrappers
  import opened EventStream
  import opened Lines

  // ----- Events as the decoder gives them -----

  datatype Start = Start(id: Bytes, model: Bytes, stopReason: Option<Bytes>)

  /** The type and text of a content block or a delta. */
  datatype Typed = Typed(kind: Bytes, text: Bytes)

  /** The fields of an event; None where one is absent or of another shape. stopDelta is
      the stop reason of a delta that has the shape of one, which may carry none. */
  datatype Fields = Fields(
    index: Option<int>,
    message: Option<Start>,
    block: Option<Typed>,
    textDelta: Option<Typed>,
    stopDelta: Option<Option<Bytes>>,
    error: Option<Typed>)

  datatype Decoder = Decoder(kind: Bytes -> Option<Bytes>, fields: Bytes -> Option<Fields>)

  // ----- The message so far -----

  datatype Block = Block(kind: Bytes, text: Bytes)

  datatype Acc = Acc(
    started: bool,
    stopped: bool,
    id: Bytes,
    model: Bytes,
    stopReason: Bytes,
    blocks: seq<Block>)

  const EMPTY := Acc(false, false, "", "", "", [])

  datatype Response = Response(id: Bytes, model: Bytes, stopReason: Bytes, text: Bytes)

  datatype Outcome =
    | Message(response: Response)
    | Truncated
    | LineTooLong
    | BadEvent
    | ApiError(kind: Bytes, message: Bytes)

  datatype Handled = Ok(acc: Acc) | Failed(outcome: Outcome)

  predicate ReadsFields(kind: Bytes) {
    kind in {"message_start", "content_block_start", "content_block_delta", "message_delta", "error"}
  }

  /** The event's type: the one in its data, or the name of its "event:" line when the
      data is empty or has none. None: the data is not JSON. */
  function KindOf(ev: SseEvent, dec: Decoder): Option<Bytes> {
    if ev.data == "" then Some(ev.name)
    else
      match dec.kind(ev.data)
      case None => None
      case Some(kind) => Some(if kind != "" then kind else ev.name)
  }

  const MAX_INDEX := 4096

  predicate ValidIndex(i: Option<int>) {
    i.Some? && 0 <= i.value <= MAX_INDEX
  }

  /** Room for block i. */
  function Padded(blocks: seq<Block>, i: nat): (r: seq<Block>)
    ensures |r| == if |blocks| <= i then i + 1 else |blocks|
    ensures blocks <= r
    ensures forall j :: |blocks| <= j < |r| ==> r[j] == Block("", "")
    decreases i + 1 - |blocks|
  {
    if |blocks| <= i then Padded(blocks + [Block("", "")], i) else blocks
  }

  function StartBlock(acc: Acc, i: nat, b: Option<Typed>): Acc {
    var blocks := Padded(acc.blocks, i);
    if b.None? then acc.(blocks := blocks)
    else
      var text := if b.value.kind == "text" then blocks[i].text + b.value.text else blocks[i].text;
      acc.(blocks := blocks[i := Block(b.value.kind, text)])
  }

  function ExtendBlock(acc: Acc, i: nat, d: Option<Typed>): Acc {
    var blocks := Padded(acc.blocks, i);
    if d.None? || d.value.kind != "text_delta" then acc.(blocks := blocks)
    else
      var kind := if blocks[i].kind == "" then "text" else blocks[i].kind;
      var text := if kind == "text" then blocks[i].text + d.value.text else blocks[i].text;
      acc.(blocks := blocks[i := Block(kind, text)])
  }

  function SetStop(acc: Acc, reason: Option<Bytes>): Acc {
    if reason.Some? then acc.(stopReason := reason.value) else acc
  }

  function Handle(acc: Acc, ev: SseEvent, dec: Decoder): Handled {
    match KindOf(ev, dec)
    case None => Failed(BadEvent)
    case Some(kind) =>
      if kind == "message_stop" then Ok(acc.(stopped := true))
      else if !ReadsFields(kind) then Ok(acc)
      else
        match dec.fields(ev.data)
        case None => Failed(BadEvent)
        case Some(f) => HandleFields(acc, kind, f)
  }

  function HandleFields(acc: Acc, kind: Bytes, f: Fields): Handled {
    if kind == "error" then
      Failed(if f.error.Some? then ApiError(f.error.value.kind, f.error.value.text) else ApiError("", ""))
    else if kind == "message_start" then
      if f.message.None? then Failed(BadEvent)
      else
        var m := f.message.value;
        Ok(SetStop(acc.(started := true, id := m.id, model := m.model, stopReason := "", blocks := []),
                   m.stopReason))
    else if kind == "content_block_start" then
      Ok(if ValidIndex(f.index) then StartBlock(acc, f.index.value, f.block) else acc)
    else if kind == "content_block_delta" then
      Ok(if ValidIndex(f.index) then ExtendBlock(acc, f.index.value, f.textDelta) else acc)
    else
      Ok(if f.stopDelta.Some? then SetStop(acc, f.stopDelta.value) else acc)
  }

  function HandleAll(acc: Acc, evs: seq<SseEvent>, dec: Decoder): Handled
    decreases |evs|
  {
    if evs == [] then Ok(acc)
    else
      match Handle(acc, evs[0], dec)
      case Failed(o) => Failed(o)
      case Ok(acc') => HandleAll(acc', evs[1..], dec)
  }

  function TextOf(blocks: seq<Block>): Bytes {
    if blocks == [] then ""
    else (if blocks[0].kind == "text" then blocks[0].text else "") + TextOf(blocks[1..])
  }

  function Finish(acc: Acc): Outcome {
    if !acc.started || (!acc.stopped && acc.stopReason == "") then Truncated
    else Message(Response(acc.id, acc.model, acc.stopReason, TextOf(acc.blocks)))
  }

  /** What becomes of a message when the rest of the body is read as r. */
  function Conclude(acc: Acc, r: Reading, dec: Decoder): Outcome {
    match HandleAll(acc, r.events, dec)
    case Failed(o) => o
    case Ok(acc') => if r.tooLong then LineTooLong else Finish(acc')
  }

  /** parseStream, as a function of the whole body. */
  function Parse(input: Bytes, dec: Decoder): Outcome {
    Conclude(EMPTY, Read(input, NOTHING), dec)
  }

  // ----- The parser as it runs -----

  /** The text so far, and what the blocks left add to it. */
  predicate JoinsTo(text: Bytes, blocks: seq<Block>, all: Bytes) {
    text + TextOf(blocks) == all
  }

  lemma TextOfNext(blocks: seq<Block>, i: nat, text: Bytes, all: Bytes)
    requires i < |blocks| && JoinsTo(text, blocks[i..], all)
    ensures JoinsTo(if blocks[i].kind == "text" then text + blocks[i].text else text, blocks[i + 1..], all)
  {
    var rest := blocks[i + 1..];
    assert blocks[i..][1..] == rest;
    var tail := TextOf(rest);
    if blocks[i].kind == "text" {
      assert TextOf(blocks[i..]) == blocks[i].text + tail;
      assert text + (blocks[i].text + tail) == text + blocks[i].text + tail;
    } else {
      assert TextOf(blocks[i..]) == "" + tail == tail;
    }
  }

  lemma TextOfNone(text: Bytes, all: Bytes)
    requires JoinsTo(text, [], all)
    ensures text == all
  {
  }

  class Accumulator {
    var started: bool
    var stopped: bool
    var id: Bytes
    var model: Bytes
    var stopReason: Bytes
    var blocks: seq<Block>

    function View(): Acc
      reads this
    {
      Acc(started, stopped, id, model, stopReason, blocks)
    }

    constructor ()
      ensures View() == EMPTY
    {
      started, stopped, id, model, stopReason, blocks := false, false, "", "", "", [];
    }

    method MakeRoom(i: nat)
      modifies this`blocks
      ensures blocks == Padded(old(blocks), i)
    {
      while |blocks| <= i
        invariant Padded(blocks, i) == Padded(old(blocks), i)
        decreases i + 1 - |blocks|
      {
        blocks := blocks + [Block("", "")];
      }
    }

    /** Handles one event; the error it returns ends the stream. */
    method HandleEvent(ev: SseEvent, dec: Decoder) returns (error: Option<Outcome>)
      modifies this
      ensures match Handle(old(View()), ev, dec)
              case Ok(acc) => error == None && View() == acc
              case Failed(o) => error == Some(o)
    {
      error := None;
      var kind := KindOf(ev, dec);
      if kind.None? {
        return Some(BadEvent);
      }
      if kind.value == "message_stop" {
        stopped := true;
        return;
      }
      if !ReadsFields(kind.value) {
        return;
      }
      var fields := dec.fields(ev.data);
      if fields.None? {
        return Some(BadEvent);
      }
      var f := fields.value;
      if kind.value == "error" {
        return Some(if f.error.Some? then ApiError(f.error.value.kind, f.error.value.text) else ApiError("", ""));
      } else if kind.value == "message_start" {
        if f.message.None? {
          return Some(BadEvent);
        }
        started := true;
        id, model, stopReason, blocks := f.message.value.id, f.message.value.model, "", [];
        if f.message.value.stopReason.Some? {
          stopReason := f.message.value.stopReason.value;
        }
      } else if kind.value == "content_block_start" {
        if ValidIndex(f.index) {
          var i := f.index.value;
          MakeRoom(i);
          if f.block.Some? {
            var text := blocks[i].text;
            if f.block.value.kind == "text" {
              text := text + f.block.value.text;
            }
            blocks := blocks[i := Block(f.block.value.kind, text)];
          }
        }
      } else if kind.value == "content_block_delta" {
        if ValidIndex(f.index) {
          var i := f.index.value;
          MakeRoom(i);
          if f.textDelta.Some? && f.textDelta.value.kind == "text_delta" {
            var k, text := blocks[i].kind, blocks[i].text;
            if k == "" {
              k := "text";
            }
            if k == "text" {
              text := text + f.textDelta.value.text;
            }
            blocks := blocks[i := Block(k, text)];
          }
        }
      } else if f.stopDelta.Some? && f.stopDelta.value.Some? {
        stopReason := f.stopDelta.value.value;
      }
    }

    /** finish: the text blocks joined in order. */
    method FinishMessage() returns (o: Outcome)
      ensures o == Finish(View())
    {
      hide TextOf;
      if !started || (!stopped && stopReason == "") {
        return Truncated;
      }
      var text: Bytes := "";
      var i := 0;
      assert blocks[i..] == blocks;
      while i < |blocks|
        invariant 0 <= i <= |blocks|
        invariant JoinsTo(text, blocks[i..], TextOf(blocks))
      {
        TextOfNext(blocks, i, text, TextOf(blocks));
        if blocks[i].kind == "text" {
          text := text + blocks[i].text;
        }
        i := i + 1;
      }
      assert blocks[i..] == [];
      TextOfNone(text, TextOf(blocks));
      return Message(Response(id, model, stopReason, text));
    }
  }

  /** parseStream: the body is read line by line, each event handled as it completes. */
  method ParseStream(input: Bytes, dec: Decoder) returns (o: Outcome)
    ensures o == Parse(input, dec)
  {
    var acc := new Accumulator();
    var pending := NOTHING;
    var rest := input;
    while '\n' in rest
      invariant Conclude(acc.View(), Read(rest, pending), dec) == Parse(input, dec)
      decreases |rest|
    {
      var n := IndexOf(rest, '\n');
      if n + 1 > MAX_EVENT_LINE {
        return LineTooLong;
      }
      var line := TrimRight(rest[..n + 1]);
      rest := rest[n + 1..];
      if line == "" {
        var ready := Flush(pending);
        pending := NOTHING;
        if ready != [] {
          ReadyFirst(acc.View(), ready[0], Read(rest, NOTHING), dec);
          var error := acc.HandleEvent(ready[0], dec);
          if error.Some? {
            return error.value;
          }
        } else {
          assert [] + Read(rest, NOTHING).events == Read(rest, NOTHING).events;
        }
      } else {
        pending := Field(pending, line);
      }
    }
    if |rest| > MAX_EVENT_LINE {
      return LineTooLong;
    }
    var ready := Flush(pending);
    if ready != [] {
      ReadyFirst(acc.View(), ready[0], Reading([], false), dec);
      assert [ready[0]] + [] == ready;
      var error := acc.HandleEvent(ready[0], dec);
      if error.Some? {
        return error.value;
      }
    }
    o := acc.FinishMessage();
  }

  /** Handling the first event now, or as one of all. */
  lemma ReadyFirst(acc: Acc, ev: SseEvent, r: Reading, dec: Decoder)
    ensures Conclude(acc, Reading([ev] + r.events, r.tooLong), dec) ==
              match Handle(acc, ev, dec)
              case Failed(o) => o
              case Ok(acc') => Conclude(acc', r, dec)
  {
    assert ([ev] + r.events)[1..] == r.events;
  }

  // ----- Any stream: its first fault decides -----

  /** What is wrong with an event by itself, whatever came before: data that is not JSON, or
      not of the shape its type asks for; a message_start without a message; an error. */
  function FaultOf(ev: SseEvent, dec: Decoder): Option<Outcome> {
    if ev.data != "" && dec.kind(ev.data).None? then Some(BadEvent)
    else
      var told := if ev.data == "" then "" else dec.kind(ev.data).value;
      var kind := if told == "" then ev.name else told;
      if kind !in {"message_start", "content_block_start", "content_block_delta", "message_delta", "error"} then None
      else
        match dec.fields(ev.data)
        case None => Some(BadEvent)
        case Some(f) =>
          if kind == "error" then
            Some(match f.error case Some(e) => ApiError(e.kind, e.text) case None => ApiError("", ""))
          else if kind == "message_start" && f.message == None then Some(BadEvent)
          else None
  }

  lemma FaultFails(acc: Acc, ev: SseEvent, dec: Decoder)
    ensures match FaultOf(ev, dec)
            case Some(o) => Handle(acc, ev, dec) == Failed(o)
            case None => Handle(acc, ev, dec).Ok?
  {
    hide Padded, StartBlock, ExtendBlock, SetStop;
  }

  lemma {:induction false} FirstFault(acc: Acc, evs: seq<SseEvent>, dec: Decoder, k: nat)
    requires k <= |evs| && forall i :: 0 <= i < k ==> FaultOf(evs[i], dec) == None
    ensures if k < |evs| && FaultOf(evs[k], dec).Some?
            then HandleAll(acc, evs, dec) == Failed(FaultOf(evs[k], dec).value)
            else k == |evs| ==> HandleAll(acc, evs, dec).Ok?
    decreases |evs|
  {
    hide Handle, FaultOf;
    if evs != [] {
      FaultFails(acc, evs[0], dec);
      if k > 0 {
        FirstFault(Handle(acc, evs[0], dec).acc, evs[1..], dec, k - 1);
      }
    }
  }

  /** The body's k-th event is faulty, and none before it. */
  predicate FaultyAt(evs: seq<SseEvent>, dec: Decoder, k: nat) {
    && k < |evs| && FaultOf(evs[k], dec).Some?
    && forall i :: 0 <= i < k ==> FaultOf(evs[i], dec) == None
  }

  /** For every body: the first fault is what is reported, whatever follows it. Without one a
      line over the limit is reported, and else the body is a message or truncated. */
  lemma FirstFaultDecides(input: Bytes, dec: Decoder)
    ensures var r := Read(input, NOTHING);
            && (forall k: nat :: FaultyAt(r.events, dec, k) ==> Parse(input, dec) == FaultOf(r.events[k], dec).value)
            && ((forall k: nat :: !FaultyAt(r.events, dec, k)) ==>
                  if r.tooLong then Parse(input, dec) == LineTooLong
                  else Parse(input, dec).Message? || Parse(input, dec) == Truncated)
  {
    hide HandleAll, FaultOf, Read;
    var evs := Read(input, NOTHING).events;
    forall k: nat | FaultyAt(evs, dec, k)
      ensures HandleAll(EMPTY, evs, dec) == Failed(FaultOf(evs[k], dec).value)
    {
      FirstFault(EMPTY, evs, dec, k);
    }
    if forall k: nat :: !FaultyAt(evs, dec, k) {
      NoFault(evs, dec, |evs|);
      FirstFault(EMPTY, evs, dec, |evs|);
    }
  }

  lemma {:induction false} NoFault(evs: seq<SseEvent>, dec: Decoder, n: nat)
    requires n <= |evs| && forall k: nat :: !FaultyAt(evs, dec, k)
    ensures forall i :: 0 <= i < n ==> FaultOf(evs[i], dec) == None
    decreases n
  {
    hide FaultOf;
    if n > 0 {
      NoFault(evs, dec, n - 1);
      assert !FaultyAt(evs, dec, n - 1);
    }
  }

  // ----- Well-formed streams -----

  /** A ping, the end of a content block, or a kind of event the parser does not know. */
  predicate Ignored(ev: SseEvent, dec: Decoder) {
    var kind := KindOf(ev, dec);
    kind.Some? && kind.value != "message_stop" && !ReadsFields(kind.value)
  }

  predicate OfKind(ev: SseEvent, dec: Decoder, kind: Bytes) {
    KindOf(ev, dec) == Some(kind) && dec.fields(ev.data).Some?
  }

  predicate IsStart(ev: SseEvent, dec: Decoder) {
    OfKind(ev, dec, "message_start") &&
    var m := dec.fields(ev.data).value.message;
    m.Some? && m.value.stopReason.None?
  }

  predicate IsBlockEvent(ev: SseEvent, dec: Decoder) {
    OfKind(ev, dec, "content_block_start") || OfKind(ev, dec, "content_block_delta")
  }

  predicate IsStop(ev: SseEvent, dec: Decoder) {
    OfKind(ev, dec, "message_delta") &&
    var d := dec.fields(ev.data).value.stopDelta;
    d.Some? && d.value.Some? && d.value.value != ""
  }

  predicate IsEnd(ev: SseEvent, dec: Decoder) {
    KindOf(ev, dec) == Some("message_stop")
  }

  /** One message_start without a stop reason at start, content blocks, one message_delta
      with a stop reason at stop, then message_stop, and pings anywhere. */
  predicate WellFormed(evs: seq<SseEvent>, dec: Decoder, start: nat, stop: nat) {
    && start < stop < |evs|
    && (forall i :: 0 <= i < start ==> Ignored(evs[i], dec))
    && IsStart(evs[start], dec)
    && (forall i :: start < i < stop ==> Ignored(evs[i], dec) || IsBlockEvent(evs[i], dec))
    && IsStop(evs[stop], dec)
    && (forall i :: stop < i < |evs| ==> Ignored(evs[i], dec) || IsEnd(evs[i], dec))
    && (exists i :: stop < i < |evs| && IsEnd(evs[i], dec))
  }

  lemma {:induction false} HandleLast(acc: Acc, evs: seq<SseEvent>, dec: Decoder)
    requires evs != []
    ensures var before := HandleAll(acc, evs[..|evs| - 1], dec);
            HandleAll(acc, evs, dec) ==
              if before.Failed? then before else Handle(before.acc, evs[|evs| - 1], dec)
    decreases |evs|
  {
    var first := Handle(acc, evs[0], dec);
    if |evs| > 1 && first.Ok? {
      HandleLast(first.acc, evs[1..], dec);
      assert evs[1..][..|evs| - 2] == evs[..|evs| - 1][1..];
    }
  }

  /** What is known after k events of a well-formed stream. */
  lemma {:induction false} AfterPrefix(evs: seq<SseEvent>, dec: Decoder, start: nat, stop: nat, k: nat)
    requires WellFormed(evs, dec, start, stop) && k <= |evs|
    ensures var h := HandleAll(EMPTY, evs[..k], dec);
            && h.Ok?
            && (k <= start ==> h.acc == EMPTY)
            && (start < k <= stop ==> h.acc.started && !h.acc.stopped && h.acc.stopReason == "")
            && (stop < k ==> var at := HandleAll(EMPTY, evs[..stop + 1], dec);
                  && at.Ok? && at.acc.started && at.acc.stopReason != ""
                  && h.acc == at.acc.(stopped := h.acc.stopped))
    decreases k
  {
    if k > 0 {
      AfterPrefix(evs, dec, start, stop, k - 1);
      HandleLast(EMPTY, evs[..k], dec);
      assert evs[..k][..k - 1] == evs[..k - 1];
      var ev, acc := evs[k - 1], HandleAll(EMPTY, evs[..k - 1], dec).acc;
      hide HandleAll, Handle, IsStart, IsStop, IsEnd, Ignored, IsBlockEvent;
      if k - 1 < start {
        HandlesIgnored(acc, ev, dec);
      } else if k - 1 == start {
        HandlesStart(acc, ev, dec);
      } else if k - 1 < stop {
        HandlesBody(acc, ev, dec);
      } else if k - 1 == stop {
        HandlesStop(acc, ev, dec);
      } else {
        HandlesEnd(acc, ev, dec);
      }
    }
  }

  // What each kind of event does to the message.

  lemma HandlesIgnored(acc: Acc, ev: SseEvent, dec: Decoder)
    requires Ignored(ev, dec)
    ensures Handle(acc, ev, dec) == Ok(acc)
  {
  }

  lemma HandlesStart(acc: Acc, ev: SseEvent, dec: Decoder)
    requires IsStart(ev, dec) && !acc.stopped
    ensures var h := Handle(acc, ev, dec);
            h.Ok? && h.acc.started && !h.acc.stopped && h.acc.stopReason == ""
  {
    assert HandleFields(acc, "message_start", dec.fields(ev.data).value).Ok?;
  }

  lemma HandlesBody(acc: Acc, ev: SseEvent, dec: Decoder)
    requires Ignored(ev, dec) || IsBlockEvent(ev, dec)
    ensures var h := Handle(acc, ev, dec);
            h.Ok? && h.acc == acc.(blocks := h.acc.blocks)
  {
    hide Padded;
    if Ignored(ev, dec) {
      HandlesIgnored(acc, ev, dec);
    } else {
      var kind := KindOf(ev, dec).value;
      assert HandleFields(acc, kind, dec.fields(ev.data).value).Ok?;
    }
  }

  lemma HandlesStop(acc: Acc, ev: SseEvent, dec: Decoder)
    requires IsStop(ev, dec)
    ensures var h := Handle(acc, ev, dec);
            h.Ok? && h.acc.stopReason != "" && h.acc == acc.(stopReason := h.acc.stopReason)
  {
    assert HandleFields(acc, "message_delta", dec.fields(ev.data).value).Ok?;
  }

  lemma HandlesEnd(acc: Acc, ev: SseEvent, dec: Decoder)
    requires Ignored(ev, dec) || IsEnd(ev, dec)
    ensures var h := Handle(acc, ev, dec);
            h.Ok? && h.acc == acc.(stopped := h.acc.stopped)
  {
    if Ignored(ev, dec) {
      HandlesIgnored(acc, ev, dec);
    }
  }

  /** A stream cut anywhere is reported as truncated, or gives exactly the message the
      whole stream gives: never part of a text, never another stop reason. */
  lemma CutStreamNeverLies(fs: seq<Frame>, dec: Decoder, start: nat, stop: nat, n: nat)
    requires ValidFrames(fs) && WellFormed(EventsOf(fs), dec, start, stop)
    requires n <= |RenderAll(fs)|
    ensures Parse(RenderAll(fs), dec).Message?
    ensures var cut := Parse(RenderAll(fs)[..n], dec);
            cut == Truncated || cut == Parse(RenderAll(fs), dec)
  {
    var evs := EventsOf(fs);
    var all := RenderAll(fs);
    var k := CutStreamIsPrefix(fs, n);
    var whole := CutStreamIsPrefix(fs, |all|);
    assert all[..|all|] == all && evs[..|evs|] == evs;
    AfterPrefix(evs, dec, start, stop, k);
    AfterPrefix(evs, dec, start, stop, |evs|);
  }

  /** The event a cut loses decides: the message comes back exactly when its message_delta
      was among the whole events left. */
  lemma CompleteFromMessageDelta(fs: seq<Frame>, dec: Decoder, start: nat, stop: nat, n: nat)
    requires ValidFrames(fs) && WellFormed(EventsOf(fs), dec, start, stop)
    requires n <= |RenderAll(fs)|
    ensures Parse(RenderAll(fs)[..n], dec).Message? <==>
              |Read(RenderAll(fs)[..n], NOTHING).events| > stop
  {
    var k := CutStreamIsPrefix(fs, n);
    AfterPrefix(EventsOf(fs), dec, start, stop, k);
  }

  // ----- The text of the message -----

  /** The event is of this kind and names block i. */
  predicate Concerns(ev: SseEvent, dec: Decoder, kind: Bytes, i: nat) {
    OfKind(ev, dec, kind) && dec.fields(ev.data).value.index == Some(i)
  }

  /** A block after its content_block_start: the type it names, and its text if it is text. */
  function OnStart(b: Block, t: Option<Typed>): Block {
    match t
    case None => b
    case Some(t) => if t.kind == "text" then Block("text", b.text + t.text) else Block(t.kind, b.text)
  }

  /** A block after a content_block_delta: more text, unless either is of another type. */
  function OnDelta(b: Block, d: Option<Typed>): Block {
    if d.Some? && d.value.kind == "text_delta" && (b.kind == "" || b.kind == "text") then
      Block("text", b.text + d.value.text)
    else b
  }

  /** Block i as the events that name it, alone and in order, make it. */
  function BlockFrom(evs: seq<SseEvent>, dec: Decoder, i: nat): Block
    decreases |evs|
  {
    if evs == [] then Block("", "")
    else
      var b := BlockFrom(evs[..|evs| - 1], dec, i);
      var ev := evs[|evs| - 1];
      if Concerns(ev, dec, "content_block_start", i) then OnStart(b, dec.fields(ev.data).value.block)
      else if Concerns(ev, dec, "content_block_delta", i) then OnDelta(b, dec.fields(ev.data).value.textDelta)
      else b
  }

  /** The texts of the first n blocks that are text, joined. */
  function TextOfFirst(evs: seq<SseEvent>, dec: Decoder, n: nat): Bytes {
    if n == 0 then ""
    else
      var b := BlockFrom(evs, dec, n - 1);
      TextOfFirst(evs, dec, n - 1) + if b.kind == "text" then b.text else ""
  }

  lemma {:induction false} TextOfSnoc(blocks: seq<Block>, b: Block)
    ensures TextOf(blocks + [b]) == TextOf(blocks) + if b.kind == "text" then b.text else ""
    decreases |blocks|
  {
    if blocks == [] {
      assert blocks + [b] == [b];
    } else {
      assert (blocks + [b])[1..] == blocks[1..] + [b];
      TextOfSnoc(blocks[1..], b);
    }
  }

  /** Block i of those made so far; one not made yet is empty. */
  function BlockAt(blocks: seq<Block>, i: nat): Block {
    if i < |blocks| then blocks[i] else Block("", "")
  }

  /** The accumulated blocks are those the events make, each of its own events only. */
  ghost predicate BlocksAre(blocks: seq<Block>, evs: seq<SseEvent>, dec: Decoder) {
    |blocks| <= MAX_INDEX + 1
    && forall i: nat {:trigger BlockFrom(evs, dec, i)} :: i <= MAX_INDEX ==>
         BlockFrom(evs, dec, i) == BlockAt(blocks, i)
  }

  lemma {:induction false} TextByBlock(blocks: seq<Block>, evs: seq<SseEvent>, dec: Decoder, n: nat)
    requires BlocksAre(blocks, evs, dec) && n <= MAX_INDEX + 1
    ensures TextOfFirst(evs, dec, n) == TextOf(if n <= |blocks| then blocks[..n] else blocks)
    decreases n
  {
    if n > 0 {
      TextByBlock(blocks, evs, dec, n - 1);
      assert BlockFrom(evs, dec, n - 1) == BlockAt(blocks, n - 1);
      if n <= |blocks| {
        TextOfSnoc(blocks[..n - 1], blocks[n - 1]);
        assert blocks[..n] == blocks[..n - 1] + [blocks[n - 1]];
      } else if n - 1 == |blocks| {
        assert blocks[..n - 1] == blocks;
      }
    }
  }

  lemma StartChangesOne(acc: Acc, at: nat, t: Option<Typed>, i: nat)
    ensures BlockAt(StartBlock(acc, at, t).blocks, i) ==
              if i == at then OnStart(BlockAt(acc.blocks, i), t) else BlockAt(acc.blocks, i)
  {
  }

  lemma DeltaChangesOne(acc: Acc, at: nat, d: Option<Typed>, i: nat)
    ensures BlockAt(ExtendBlock(acc, at, d).blocks, i) ==
              if i == at then OnDelta(BlockAt(acc.blocks, i), d) else BlockAt(acc.blocks, i)
  {
    var blocks := Padded(acc.blocks, at);
    assert BlockAt(blocks, i) == BlockAt(acc.blocks, i);
  }

  lemma {:induction false} BodyMakesBlocks(acc: Acc, body: seq<SseEvent>, dec: Decoder)
    requires acc.blocks == []
    requires forall i :: 0 <= i < |body| ==> Ignored(body[i], dec) || IsBlockEvent(body[i], dec)
    ensures var h := HandleAll(acc, body, dec);
            h.Ok? && BlocksAre(h.acc.blocks, body, dec) && h.acc == acc.(blocks := h.acc.blocks)
    decreases |body|
  {
    if body != [] {
      var last := |body| - 1;
      BodyMakesBlocks(acc, body[..last], dec);
      HandleLast(acc, body, dec);
      var before := HandleAll(acc, body[..last], dec).acc;
      BlockEventStep(before, body[..last], body[last], dec);
      assert body[..last] + [body[last]] == body;
    }
  }

  lemma BlockEventStep(acc: Acc, evs: seq<SseEvent>, ev: SseEvent, dec: Decoder)
    requires BlocksAre(acc.blocks, evs, dec)
    requires Ignored(ev, dec) || IsBlockEvent(ev, dec)
    ensures var h := Handle(acc, ev, dec);
            h.Ok? && BlocksAre(h.acc.blocks, evs + [ev], dec) && h.acc == acc.(blocks := h.acc.blocks)
  {
    if Ignored(ev, dec) {
      IgnoredStep(acc, evs, ev, dec);
    } else if OfKind(ev, dec, "content_block_start") {
      StartStep(acc, evs, ev, dec);
    } else {
      DeltaStep(acc, evs, ev, dec);
    }
  }

  lemma IgnoredStep(acc: Acc, evs: seq<SseEvent>, ev: SseEvent, dec: Decoder)
    requires BlocksAre(acc.blocks, evs, dec) && Ignored(ev, dec)
    ensures Handle(acc, ev, dec) == Ok(acc) && BlocksAre(acc.blocks, evs + [ev], dec)
  {
    forall i: nat | i <= MAX_INDEX
      ensures BlockFrom(evs + [ev], dec, i) == BlockAt(acc.blocks, i)
    {
      assert (evs + [ev])[..|evs|] == evs;
      assert BlockFrom(evs, dec, i) == BlockAt(acc.blocks, i);
    }
  }

  lemma StartStep(acc: Acc, evs: seq<SseEvent>, ev: SseEvent, dec: Decoder)
    requires BlocksAre(acc.blocks, evs, dec) && OfKind(ev, dec, "content_block_start")
    ensures var h := Handle(acc, ev, dec);
            h.Ok? && BlocksAre(h.acc.blocks, evs + [ev], dec) && h.acc == acc.(blocks := h.acc.blocks)
  {
    var f := dec.fields(ev.data).value;
    var acc' := if ValidIndex(f.index) then StartBlock(acc, f.index.value, f.block) else acc;
    assert HandleFields(acc, "content_block_start", f) == Ok(acc');
    forall i: nat | i <= MAX_INDEX
      ensures BlockFrom(evs + [ev], dec, i) == BlockAt(acc'.blocks, i)
    {
      assert (evs + [ev])[..|evs|] == evs;
      assert BlockFrom(evs, dec, i) == BlockAt(acc.blocks, i);
      if ValidIndex(f.index) {
        StartChangesOne(acc, f.index.value, f.block, i);
      }
    }
  }

  lemma DeltaStep(acc: Acc, evs: seq<SseEvent>, ev: SseEvent, dec: Decoder)
    requires BlocksAre(acc.blocks, evs, dec) && OfKind(ev, dec, "content_block_delta")
    ensures var h := Handle(acc, ev, dec);
            h.Ok? && BlocksAre(h.acc.blocks, evs + [ev], dec) && h.acc == acc.(blocks := h.acc.blocks)
  {
    var f := dec.fields(ev.data).value;
    var acc' := if ValidIndex(f.index) then ExtendBlock(acc, f.index.value, f.textDelta) else acc;
    assert HandleFields(acc, "content_block_delta", f) == Ok(acc');
    forall i: nat | i <= MAX_INDEX
      ensures BlockFrom(evs + [ev], dec, i) == BlockAt(acc'.blocks, i)
    {
      assert (evs + [ev])[..|evs|] == evs;
      assert BlockFrom(evs, dec, i) == BlockAt(acc.blocks, i);
      if ValidIndex(f.index) {
        DeltaChangesOne(acc, f.index.value, f.textDelta, i);
      }
    }
  }

  lemma {:induction false} HandleJoined(acc: Acc, first: seq<SseEvent>, second: seq<SseEvent>, dec: Decoder)
    ensures HandleAll(acc, first + second, dec) ==
              match HandleAll(acc, first, dec)
              case Failed(o) => Failed(o)
              case Ok(acc') => HandleAll(acc', second, dec)
    decreases |first|
  {
    if first == [] {
      assert first + second == second;
    } else {
      assert (first + second)[1..] == first[1..] + second;
      match Handle(acc, first[0], dec)
      case Failed(_) =>
      case Ok(acc') => HandleJoined(acc', first[1..], second, dec);
    }
  }

  /** The message the events of a well-formed stream spell out: the id and model its start
      gives, the stop reason its message_delta gives, and for its text the text blocks in
      order of index, each made of its own events in order. */
  function Spelled(evs: seq<SseEvent>, dec: Decoder, start: nat, stop: nat): Response
    requires WellFormed(evs, dec, start, stop)
  {
    var m := dec.fields(evs[start].data).value.message.value;
    var reason := dec.fields(evs[stop].data).value.stopDelta.value.value;
    Response(m.id, m.model, reason, TextOfFirst(evs[start + 1..stop], dec, MAX_INDEX + 1))
  }

  lemma StartMakes(evs: seq<SseEvent>, dec: Decoder, start: nat, stop: nat)
    requires WellFormed(evs, dec, start, stop)
    ensures var h := HandleAll(EMPTY, evs[..start + 1], dec);
            var m := dec.fields(evs[start].data).value.message.value;
            h == Ok(Acc(true, false, m.id, m.model, "", []))
  {
    AfterPrefix(evs, dec, start, stop, start);
    HandleLast(EMPTY, evs[..start + 1], dec);
    assert evs[..start + 1][..start] == evs[..start];
    assert HandleFields(EMPTY, "message_start", dec.fields(evs[start].data).value).Ok?;
  }

  lemma BodyMakes(evs: seq<SseEvent>, dec: Decoder, start: nat, stop: nat)
    requires WellFormed(evs, dec, start, stop)
    ensures var m := dec.fields(evs[start].data).value.message.value;
            var h := HandleAll(EMPTY, evs[..stop], dec);
            && h.Ok? && h.acc == Acc(true, false, m.id, m.model, "", h.acc.blocks)
            && BlocksAre(h.acc.blocks, evs[start + 1..stop], dec)
  {
    StartMakes(evs, dec, start, stop);
    var body := evs[start + 1..stop];
    HandleJoined(EMPTY, evs[..start + 1], body, dec);
    assert evs[..start + 1] + body == evs[..stop];
    BodyMakesBlocks(HandleAll(EMPTY, evs[..start + 1], dec).acc, body, dec);
  }

  lemma StopMakes(evs: seq<SseEvent>, dec: Decoder, start: nat, stop: nat)
    requires WellFormed(evs, dec, start, stop)
    ensures var h := HandleAll(EMPTY, evs[..stop + 1], dec);
            var r := Spelled(evs, dec, start, stop);
            && h.Ok? && Response(h.acc.id, h.acc.model, h.acc.stopReason, TextOf(h.acc.blocks)) == r
  {
    BodyMakes(evs, dec, start, stop);
    HandleLast(EMPTY, evs[..stop + 1], dec);
    assert evs[..stop + 1][..stop] == evs[..stop];
    var before := HandleAll(EMPTY, evs[..stop], dec).acc;
    assert HandleFields(before, "message_delta", dec.fields(evs[stop].data).value).Ok?;
    TextByBlock(before.blocks, evs[start + 1..stop], dec, MAX_INDEX + 1);
    assert |before.blocks| == MAX_INDEX + 1 ==> before.blocks[..MAX_INDEX + 1] == before.blocks;
  }

  /** A whole stream gives the message its events spell out. */
  lemma WholeStreamMessage(fs: seq<Frame>, dec: Decoder, start: nat, stop: nat)
    requires ValidFrames(fs) && WellFormed(EventsOf(fs), dec, start, stop)
    ensures Parse(RenderAll(fs), dec) == Message(Spelled(EventsOf(fs), dec, start, stop))
  {
    var evs, all := EventsOf(fs), RenderAll(fs);
    var k := CutStreamIsPrefix(fs, |all|);
    assert all[..|all|] == all && evs[..|evs|] == evs;
    AfterPrefix(evs, dec, start, stop, |evs|);
    StopMakes(evs, dec, start, stop);
  }
}
