/** Three ways in which the gateway reads the text of an agent's reply back from an engine stream:
    frame by frame as it arrives, line by line from the whole body, and inside `send_to_agent`. */
module Extractors {
  import opened GoStrings
  import opened Json
  import opened Framing
  import opened Printer
  import opened Relay
  import opened Transcript
  import L = ToolLoop
  import opened LoopEvents

  // ---- The engine's events on the wire

  function ToolObject(tool: ToolCall): map<string, Value> {
    map["id" := Str(tool.id), "name" := Str(tool.name), "arguments" := Str(tool.arguments)]
  }

  /** The event names (`sseEvent...` and `task.status`). */
  function WireName(e: L.Event): string {
    match e
    case Working => "task.status"
    case TextDelta(_) => "text.delta"
    case ThinkingDelta(_) => "thinking.delta"
    case CallStart(_) => "tool.call_start"
    case CallProgress(_, _) => "tool.progress"
    case SubStarted(_, _) => "subagent.started"
    case SubCompleted(_, _, _) => "subagent.completed"
    case SubFailed(_, _, _) => "subagent.error"
    case CallEnd(_) => "tool.call_end"
    case CallResult(_, _, _) => "tool.result"
    case Failed(_) => "task.status"
    case Completed(_) => "task.status"
  }

  /** The payload that `HandleRequest` and `runLoop` give to each event. */
  function WireFields(taskId: string, contextId: string, e: L.Event): map<string, Value> {
    var base := map["taskId" := Str(taskId)];
    match e
    case Working => base["contextId" := Str(contextId)]["status" := Obj(map["state" := Str("working")])]
    case TextDelta(t) => base["text" := Str(t)]
    case ThinkingDelta(t) => base["thinking" := Str(t)]
    case CallStart(tool) => base["tool" := Obj(ToolObject(tool)["status" := Str("started")])]
    case CallProgress(tool, n) =>
      base["tool" := Obj(ToolObject(tool)["status" := Str("started")]["elapsed_seconds" := Number(Decimal(n))])]
    case SubStarted(sub, id) => base["subagent_id" := Str(sub)]["tool_call_id" := Str(id)]
    case SubCompleted(sub, text, id) =>
      base["subagent_id" := Str(sub)]["result" := Str(text)]["tool_call_id" := Str(id)]
    case SubFailed(sub, error, id) => base["subagent_id" := Str(sub)]["error" := Str(error)]["tool_call_id" := Str(id)]
    case CallEnd(tool) => base["tool" := Obj(ToolObject(tool))]
    case CallResult(id, name, text) =>
      base["tool" := Obj(map["id" := Str(id), "name" := Str(name), "result" := Str(text),
                             "status" := Str("completed")])]
    case Failed(error) =>
      base["contextId" := Str(contextId)]["status" := Obj(map["state" := Str("failed"), "message" := Str(error)])]
    case Completed(text) =>
      base["contextId" := Str(contextId)]["status" := Obj(map[
        "state" := Str("completed"),
        "message" := Obj(map["role" := Str("agent"), "parts" := Arr([Obj(map["text" := Str(text)])])])])]
  }

  function Wire(taskId: string, contextId: string, e: L.Event): Event {
    Event(WireName(e), WireFields(taskId, contextId, e))
  }

  function Wires(taskId: string, contextId: string, es: seq<L.Event>): (r: seq<Event>)
    ensures |r| == |es| && forall i :: 0 <= i < |r| ==> r[i] == Wire(taskId, contextId, es[i])
  {
    if es == [] then [] else [Wire(taskId, contextId, es[0])] + Wires(taskId, contextId, es[1..])
  }

  function Body(c: Codec, taskId: string, contextId: string, es: seq<L.Event>): string {
    Stream(c, Wires(taskId, contextId, es))
  }

  function TextOf(e: L.Event): string {
    if e.TextDelta? then e.text else ""
  }

  /** The text of the first part of a completed status message. */
  function StatusText(evt: map<string, Value>): string {
    if StringAt(evt, "type") != Some("task.status") then ""
    else
      match NestedObject(evt, ["status", "message"])
      case None => ""
      case Some(msg) =>
        if "parts" in msg && msg["parts"].Arr? && msg["parts"].items != [] && msg["parts"].items[0].Obj?
           && StringAt(msg["parts"].items[0].members, "text").Some?
        then StringAt(msg["parts"].items[0].members, "text").value
        else ""
  }

  lemma WireNameOfCall(e: L.Event)
    requires !e.SubStarted? && !e.SubCompleted? && !e.SubFailed?
    ensures '\n' !in WireName(e)
  {
  }

  lemma WireNameOfSubagent(e: L.Event)
    requires e.SubStarted? || e.SubCompleted? || e.SubFailed?
    ensures '\n' !in WireName(e)
  {
  }

  lemma WireDelta(taskId: string, contextId: string, e: L.Event)
    ensures DeltaOf(Payload(Wire(taskId, contextId, e)), "text.delta", "text") == TextOf(e)
  {
  }

  lemma WireUnwrapped(taskId: string, contextId: string, e: L.Event)
    ensures WrappedText(Payload(Wire(taskId, contextId, e))) == ""
  {
  }

  lemma WireStatus(taskId: string, contextId: string, e: L.Event)
    ensures StatusText(Payload(Wire(taskId, contextId, e))) == if e.Completed? then e.text else ""
  {
  }

  lemma WireFacts(taskId: string, contextId: string, e: L.Event)
    ensures var m := Payload(Wire(taskId, contextId, e));
            && '\n' !in Wire(taskId, contextId, e).name
            && DeltaOf(m, "text.delta", "text") == TextOf(e)
            && WrappedText(m) == ""
  {
    if e.SubStarted? || e.SubCompleted? || e.SubFailed? {
      WireNameOfSubagent(e);
    } else {
      WireNameOfCall(e);
    }
    WireDelta(taskId, contextId, e);
    WireUnwrapped(taskId, contextId, e);
  }

  /** Every payload is printed on one line. */
  predicate Sendable(c: Codec, taskId: string, contextId: string, es: seq<L.Event>) {
    forall i :: 0 <= i < |es| ==> OnOneLine(c, Obj(Payload(Wire(taskId, contextId, es[i]))))
  }

  lemma WiresAreFramable(c: Codec, taskId: string, contextId: string, es: seq<L.Event>)
    requires Sendable(c, taskId, contextId, es)
    ensures AllFramable(c, Wires(taskId, contextId, es))
  {
    forall i | 0 <= i < |es| ensures Framable(c, Wires(taskId, contextId, es)[i]) {
      WireFacts(taskId, contextId, es[i]);
    }
  }

  /** What the codec reads back of an object, if anything, has the text entries of the object; the other
      entries may differ. */
  predicate KeepsTexts(c: Codec, m: map<string, Value>) {
    match DecodeObject(c, c.encode(Obj(m)))
    case None => false
    case Some(r) =>
      && DeltaOf(r, "text.delta", "text") == DeltaOf(m, "text.delta", "text")
      && WrappedText(r) == WrappedText(m) && StatusText(r) == StatusText(m)
  }

  predicate EventReadable(c: Codec, taskId: string, contextId: string, e: L.Event) {
    var m := Payload(Wire(taskId, contextId, e));
    OnOneLine(c, Obj(m)) && KeepsTexts(c, m)
  }

  predicate Readable(c: Codec, taskId: string, contextId: string, es: seq<L.Event>) {
    forall i :: 0 <= i < |es| ==> EventReadable(c, taskId, contextId, es[i])
  }

  /** A tool result that was cut inside a character comes back with other bytes; that is readable. */
  lemma CutResultIsReadable(c: Codec, taskId: string, contextId: string, id: string, name: string, cut: string,
                            shown: string)
    requires OnOneLine(c, Obj(Payload(Wire(taskId, contextId, L.CallResult(id, name, cut)))))
    requires DecodeObject(c, c.encode(Obj(Payload(Wire(taskId, contextId, L.CallResult(id, name, cut)))))) ==
             Some(Payload(Wire(taskId, contextId, L.CallResult(id, name, shown))))
    ensures Readable(c, taskId, contextId, [L.CallResult(id, name, cut)])
  {
    WireFacts(taskId, contextId, L.CallResult(id, name, cut));
    WireFacts(taskId, contextId, L.CallResult(id, name, shown));
    WireStatus(taskId, contextId, L.CallResult(id, name, cut));
    WireStatus(taskId, contextId, L.CallResult(id, name, shown));
  }

  // ---- Line-wise extraction: extractGroupAgentResponseText

  datatype Scan = Scan(streamed: string, wrapped: string)

  function ScannedData(c: Codec, s: Scan, data: string): Scan {
    if data == "" then s
    else
      match DecodeObject(c, data)
      case None => s
      case Some(evt) =>
        Scan(s.streamed + DeltaOf(evt, "text.delta", "text"),
             if WrappedText(evt) != "" then WrappedText(evt) else s.wrapped)
  }

  function Scanned(c: Codec, s: Scan, data: seq<string>): Scan
    decreases |data|
  {
    if data == [] then s else Scanned(c, ScannedData(c, s, data[0]), data[1..])
  }

  lemma {:induction false} ScannedAppend(c: Codec, s: Scan, a: seq<string>, b: seq<string>)
    ensures Scanned(c, s, a + b) == Scanned(c, Scanned(c, s, a), b)
    decreases |a|
  {
    if a == [] {
      assert a + b == b;
    } else {
      var t := a + b;
      assert t[0] == a[0] && t[1..] == a[1..] + b;
      ScannedAppend(c, ScannedData(c, s, a[0]), a[1..], b);
    }
  }

  /** `extractResponseText`. */
  function ResponseText(c: Codec, body: string): string {
    match DecodeObject(c, body)
    case None => body
    case Some(resp) =>
      match ObjectAt(resp, "result")
      case None => body
      case Some(result) =>
        match ObjectAt(result, "message")
        case Some(msg) => PartsText(msg)
        case None =>
          match NestedObject(result, ["artifactUpdate", "artifact"])
          case Some(artifact) => PartsText(artifact)
          case None => body
  }

  const NOTHING := Scan("", "")

  function LineText(c: Codec, body: string): string {
    var s := Scanned(c, NOTHING, DataLines(Lines(body)));
    if TrimSpace(s.streamed) != "" then TrimSpace(s.streamed)
    else if TrimSpace(s.wrapped) != "" then s.wrapped
    else ResponseText(c, body)
  }

  lemma ScannedPush(c: Codec, lines: seq<string>, i: nat)
    requires i < |lines|
    ensures Scanned(c, NOTHING, DataLines(lines[..i + 1]))
            == Scanned(c, Scanned(c, NOTHING, DataLines(lines[..i])), DataLine(lines[i]))
  {
    assert lines[..i + 1] == lines[..i] + [lines[i]];
    DataLinesAppend(lines[..i], [lines[i]]);
    assert [lines[i]][1..] == [] && DataLines([lines[i]]) == DataLine(lines[i]);
    ScannedAppend(c, NOTHING, DataLines(lines[..i]), DataLine(lines[i]));
  }

  /** The loop body: one line of the response. */
  method ScanLine(c: Codec, s: Scan, text: string) returns (r: Scan)
    ensures r == Scanned(c, s, DataLine(text))
  {
    r := s;
    var line := TrimSpace(text);
    if !("data:" <= line) {
      return;
    }
    var data := TrimSpace(line[5..]);
    assert DataLine(text) == [data] && [data][1..] == [];
    if data == "" {
      return;
    }
    var evt := DecodeObject(c, data);
    if evt.Some? {
      var wrapped := WrappedText(evt.value);
      r := Scan(s.streamed + DeltaOf(evt.value, "text.delta", "text"), if wrapped != "" then wrapped else s.wrapped);
    }
  }

  method ExtractGroupAgentResponseText(c: Codec, body: string) returns (text: string)
    ensures text == LineText(c, body)
  {
    var lines := Lines(body);
    var s := NOTHING;
    for i := 0 to |lines|
      invariant s == Scanned(c, NOTHING, DataLines(lines[..i]))
    {
      ScannedPush(c, lines, i);
      s := ScanLine(c, s, lines[i]);
    }
    assert lines[..|lines|] == lines;
    var trimmed := TrimSpace(s.streamed);
    if trimmed != "" {
      return trimmed;
    }
    if TrimSpace(s.wrapped) != "" {
      return s.wrapped;
    }
    text := ResponseText(c, body);
  }

  // ---- Frame-wise extraction: invokeGroupAgentWithWriter on a stream writer

  function FrameText(c: Codec, body: string): string {
    var v := HandledAll(c, View("", "", []), Frames(body).frames);
    if TrimSpace(v.text) != "" then TrimSpace(v.text) else LineText(c, body)
  }

  /** The reply text after the body has been written in any number of chunks. */
  method InvokeStreaming(c: Codec, chunks: seq<string>) returns (text: string, raw: string)
    ensures raw == Concat(chunks) && text == FrameText(c, raw)
  {
    var writer := new GroupStreamWriter(c);
    ghost var start := writer.State();
    for i := 0 to |chunks|
      invariant fresh(writer) && writer.codec == c
      invariant writer.State() == WrittenAll(c, start, chunks[..i])
    {
      WrittenAllPush(c, start, chunks, i);
      var _ := writer.Write(chunks[i]);
    }
    assert chunks[..|chunks|] == chunks;
    ChunkingInvisible(c, start, chunks);
    WrittenFresh(c, View("", "", []), Concat(chunks));
    raw := writer.raw;
    text := ExtractGroupAgentResponseText(c, raw);
    var streamed := TrimSpace(writer.text);
    if streamed != "" {
      text := streamed;
    }
  }

  lemma WrittenAllPush(c: Codec, st: WriterState, chunks: seq<string>, i: nat)
    requires i < |chunks|
    ensures WrittenAll(c, st, chunks[..i + 1]) == Written(c, WrittenAll(c, st, chunks[..i]), chunks[i])
  {
    assert chunks[..i + 1] == chunks[..i] + [chunks[i]];
    WrittenAllAppend(c, st, chunks[..i], chunks[i]);
  }

  lemma {:induction false} WrittenAllAppend(c: Codec, st: WriterState, a: seq<string>, p: string)
    ensures WrittenAll(c, st, a + [p]) == Written(c, WrittenAll(c, st, a), p)
    decreases |a|
  {
    if a == [] {
      assert a + [p] == [p] && [p][1..] == [];
    } else {
      var s := a + [p];
      assert s[0] == a[0] && s[1..] == a[1..] + [p];
      WrittenAllAppend(c, Written(c, st, a[0]), a[1..], p);
    }
  }

  // ---- Extraction inside send_to_agent

  function SendLine(line: string): seq<string> {
    if "data:" <= line then [TrimSpace(line[5..])] else []
  }

  function SendStep(c: Codec, acc: string, line: string): string {
    var d := SendLine(line);
    if d == [] || d[0] == "" then acc
    else
      match DecodeObject(c, d[0])
      case None => acc
      case Some(evt) =>
        var more := acc + DeltaOf(evt, "text.delta", "text");
        if more == "" then more + StatusText(evt) else more
  }

  function SendFold(c: Codec, acc: string, lines: seq<string>): string
    decreases |lines|
  {
    if lines == [] then acc else SendFold(c, SendStep(c, acc, lines[0]), lines[1..])
  }

  function SendText(c: Codec, body: string): string {
    var text := SendFold(c, "", Lines(body));
    if text == "" then body else text
  }

  method SendToAgentText(c: Codec, body: string) returns (result: string)
    ensures result == SendText(c, body)
  {
    var lines := Lines(body);
    var responseText := "";
    for i := 0 to |lines|
      invariant SendFold(c, responseText, lines[i..]) == SendFold(c, "", lines)
    {
      assert lines[i..][0] == lines[i] && lines[i..][1..] == lines[i + 1..];
      var line := lines[i];
      if "data:" <= line {
        var data := TrimSpace(line[5..]);
        if data == "" {
          continue;
        }
        var evt := DecodeObject(c, data);
        if evt.None? {
          continue;
        }
        responseText := responseText + DeltaOf(evt.value, "text.delta", "text");
        var status := StatusText(evt.value);
        if |responseText| == 0 {
          responseText := responseText + status;
        }
      }
    }
    result := responseText;
    if result == "" {
      result := body;
    }
  }

  // ---- They agree on engine streams

  /** Text that opens like a frame is not JSON. */
  ghost predicate RejectsFrames(c: Codec) {
    forall s: string :: (s == "" || s[0] == 'e') ==> c.decode(s).None?
  }

  lemma StreamLines(c: Codec, e: Event, es: seq<Event>)
    requires Framable(c, e)
    ensures Lines(Stream(c, [e] + es)) ==
            ["event: " + e.name, "data: " + c.encode(Obj(Payload(e))), ""] + Lines(Stream(c, es))
  {
    var first, second, rest := "event: " + e.name, "data: " + c.encode(Obj(Payload(e))), Stream(c, es);
    assert ([e] + es)[1..] == es;
    assert Stream(c, [e] + es) == first + "\n" + (second + "\n" + ("" + "\n" + rest));
    LinesAppend(first, second + "\n" + ("" + "\n" + rest));
    LinesAppend(second, "" + "\n" + rest);
    LinesAppend("", rest);
  }

  lemma StreamData(c: Codec, e: Event, es: seq<Event>)
    requires Framable(c, e)
    ensures DataLines(Lines(Stream(c, [e] + es))) == [c.encode(Obj(Payload(e)))] + DataLines(Lines(Stream(c, es)))
  {
    StreamLines(c, e, es);
    var first, second := "event: " + e.name, "data: " + c.encode(Obj(Payload(e)));
    EventLineHasNoData(e.name);
    DataLineOf(c.encode(Obj(Payload(e))));
    var rest := Lines(Stream(c, es));
    DataThree(first, second, "", rest);
    assert DataLine("") == [];
    assert [] + DataLines(rest) == DataLines(rest);
  }

  lemma DataCons(x: string, rest: seq<string>)
    ensures DataLines([x] + rest) == DataLine(x) + DataLines(rest)
  {
  }

  lemma DataThree(x: string, y: string, z: string, rest: seq<string>)
    ensures DataLines([x, y, z] + rest) == DataLine(x) + (DataLine(y) + (DataLine(z) + DataLines(rest)))
  {
    assert [x, y, z] + rest == [x] + ([y] + ([z] + rest));
    DataCons(z, rest);
    DataCons(y, [z] + rest);
    DataCons(x, [y] + ([z] + rest));
  }

  lemma ScannedWire(c: Codec, taskId: string, contextId: string, s: Scan, es: seq<L.Event>)
    requires Readable(c, taskId, contextId, es) && s.wrapped == "" && es != []
    ensures Scanned(c, s, DataLines(Lines(Body(c, taskId, contextId, es)))) ==
            Scanned(c, Scan(s.streamed + TextOf(es[0]), ""), DataLines(Lines(Body(c, taskId, contextId, es[1..]))))
  {
    ScannedEvent(c, taskId, contextId, s, es[0], Wires(taskId, contextId, es[1..]));
    assert Wires(taskId, contextId, es) == [Wire(taskId, contextId, es[0])] + Wires(taskId, contextId, es[1..]);
  }

  lemma ScannedEvent(c: Codec, taskId: string, contextId: string, s: Scan, e: L.Event, rest: seq<Event>)
    requires EventReadable(c, taskId, contextId, e) && s.wrapped == ""
    ensures Scanned(c, s, DataLines(Lines(Stream(c, [Wire(taskId, contextId, e)] + rest)))) ==
            Scanned(c, Scan(s.streamed + TextOf(e), ""), DataLines(Lines(Stream(c, rest))))
  {
    var ev := Wire(taskId, contextId, e);
    WireFacts(taskId, contextId, e);
    StreamData(c, ev, rest);
    ScannedOne(c, taskId, contextId, s, e);
    ScannedCons(c, s, c.encode(Obj(Payload(ev))), DataLines(Lines(Stream(c, rest))));
  }

  lemma ScannedOne(c: Codec, taskId: string, contextId: string, s: Scan, e: L.Event)
    requires EventReadable(c, taskId, contextId, e) && s.wrapped == ""
    ensures ScannedData(c, s, c.encode(Obj(Payload(Wire(taskId, contextId, e))))) == Scan(s.streamed + TextOf(e), "")
  {
    WireFacts(taskId, contextId, e);
  }

  lemma ScannedCons(c: Codec, s: Scan, j: string, rest: seq<string>)
    ensures Scanned(c, s, [j] + rest) == Scanned(c, ScannedData(c, s, j), rest)
  {
    assert ([j] + rest)[1..] == rest;
  }

  lemma ScannedNothing(c: Codec, taskId: string, contextId: string, s: Scan)
    ensures Scanned(c, s, DataLines(Lines(Body(c, taskId, contextId, [])))) == s
  {
    assert Stream(c, Wires(taskId, contextId, [])) == "";
    assert DataLines([""]) == DataLine("") + DataLines([]) && DataLine("") == [];
  }

  lemma {:induction false} ScannedStream(c: Codec, taskId: string, contextId: string, s: Scan, es: seq<L.Event>)
    requires Readable(c, taskId, contextId, es) && s.wrapped == ""
    ensures Scanned(c, s, DataLines(Lines(Body(c, taskId, contextId, es)))) == Scan(s.streamed + Texts(es), "")
    decreases |es|
  {
    if es == [] {
      ScannedNothing(c, taskId, contextId, s);
      assert s.streamed + "" == s.streamed;
    } else {
      ScannedWire(c, taskId, contextId, s, es);
      ScannedStream(c, taskId, contextId, Scan(s.streamed + TextOf(es[0]), ""), es[1..]);
      Assoc(s.streamed, TextOf(es[0]), Texts(es[1..]));
    }
  }

  lemma {:induction false} WireDeltas(c: Codec, taskId: string, contextId: string, es: seq<L.Event>)
    requires Readable(c, taskId, contextId, es)
    ensures Deltas(Readings(c, Wires(taskId, contextId, es)), "text.delta", "text") == Texts(es)
  {
    if es != [] {
      var ws := Wires(taskId, contextId, es);
      WireFacts(taskId, contextId, es[0]);
      assert EventReadable(c, taskId, contextId, es[0]);
      WireDeltas(c, taskId, contextId, es[1..]);
      assert ws[1..] == Wires(taskId, contextId, es[1..]);
      DeltasAppend(Reading(c, ws[0]), Readings(c, ws[1..]), "text.delta", "text");
      DeltaOfOne(DecodeObject(c, c.encode(Obj(Payload(ws[0])))).value, "text.delta", "text");
    }
  }

  lemma BodyIsNotJson(c: Codec, taskId: string, contextId: string, es: seq<L.Event>)
    requires RejectsFrames(c)
    ensures ResponseText(c, Body(c, taskId, contextId, es)) == Body(c, taskId, contextId, es)
  {
  }

  /** On every engine stream, the frame-wise and the line-wise extractor return the same text: the
      trimmed concatenation of the text deltas, or the whole body when that is blank. */
  lemma FrameAndLineAgree(c: Codec, taskId: string, contextId: string, es: seq<L.Event>)
    requires Readable(c, taskId, contextId, es) && RejectsFrames(c)
    ensures var body := Body(c, taskId, contextId, es);
            var text := TrimSpace(Texts(es));
            LineText(c, body) == FrameText(c, body) == if text != "" then text else body
  {
    ScannedStream(c, taskId, contextId, NOTHING, es);
    assert "" + Texts(es) == Texts(es);
    BodyIsNotJson(c, taskId, contextId, es);
    WireDeltas(c, taskId, contextId, es);
    WiresAreFramable(c, taskId, contextId, es);
    HandledStreamFresh(c, Wires(taskId, contextId, es));
  }

  // ---- send_to_agent

  lemma SendCons(c: Codec, acc: string, x: string, rest: seq<string>)
    ensures SendFold(c, acc, [x] + rest) == SendFold(c, SendStep(c, acc, x), rest)
  {
  }

  lemma SendThree(c: Codec, acc: string, x: string, y: string, z: string, rest: seq<string>)
    requires SendLine(x) == [] && SendLine(z) == []
    ensures SendFold(c, acc, [x, y, z] + rest) == SendFold(c, SendStep(c, acc, y), rest)
  {
    SendSkip(c, SendStep(c, acc, y), z, rest);
    SendCons(c, acc, y, [z] + rest);
    SendSkip(c, acc, x, [y] + ([z] + rest));
    assert [x, y, z] + rest == [x] + ([y] + ([z] + rest));
  }

  lemma SendSkip(c: Codec, acc: string, x: string, rest: seq<string>)
    requires SendLine(x) == []
    ensures SendFold(c, acc, [x] + rest) == SendFold(c, acc, rest)
  {
    SendCons(c, acc, x, rest);
  }

  lemma SendDataLine(j: string)
    requires j != "" && Tight(j)
    ensures SendLine("data: " + j) == [j]
  {
    var s := "data: " + j;
    assert s[5..] == " " + j;
    SpaceBehindColon(j);
  }

  lemma SendPayload(c: Codec, acc: string, line: string, j: string, m: map<string, Value>)
    requires SendLine(line) == [j] && j != "" && DecodeObject(c, j) == Some(m)
    ensures var more := acc + DeltaOf(m, "text.delta", "text");
            SendStep(c, acc, line) == if more == "" then StatusText(m) else more
  {
  }

  lemma SendEvent(c: Codec, taskId: string, contextId: string, acc: string, e: L.Event, rest: seq<Event>)
    requires EventReadable(c, taskId, contextId, e)
    ensures var more := acc + TextOf(e);
            SendFold(c, acc, Lines(Stream(c, [Wire(taskId, contextId, e)] + rest))) ==
            SendFold(c, if more == "" && e.Completed? then e.text else more, Lines(Stream(c, rest)))
  {
    var ev := Wire(taskId, contextId, e);
    var m := Payload(ev);
    WireFacts(taskId, contextId, e);
    WireStatus(taskId, contextId, e);
    StreamLines(c, ev, rest);
    var j := c.encode(Obj(m));
    var first, second := "event: " + ev.name, "data: " + j;
    EventLineSendsNothing(ev.name);
    SendDataLine(j);
    SendThree(c, acc, first, second, "", Lines(Stream(c, rest)));
    SendPayload(c, acc, second, j, DecodeObject(c, j).value);
  }

  lemma EventLineSendsNothing(name: string)
    ensures SendLine("event: " + name) == [] && SendLine("") == []
  {
    assert ("event: " + name)[0] == 'e';
  }

  lemma SendFirst(c: Codec, taskId: string, contextId: string, acc: string, es: seq<L.Event>)
    requires es != [] && Readable(c, taskId, contextId, es) && !es[0].Completed?
    ensures SendFold(c, acc, Lines(Body(c, taskId, contextId, es))) ==
            SendFold(c, acc + TextOf(es[0]), Lines(Body(c, taskId, contextId, es[1..])))
  {
    SendEvent(c, taskId, contextId, acc, es[0], Wires(taskId, contextId, es[1..]));
    assert Wires(taskId, contextId, es) == [Wire(taskId, contextId, es[0])] + Wires(taskId, contextId, es[1..]);
  }

  lemma {:induction false} SendFoldStream(c: Codec, taskId: string, contextId: string, acc: string, es: seq<L.Event>)
    requires Readable(c, taskId, contextId, es) && forall i :: 0 <= i < |es| ==> !es[i].Completed?
    ensures SendFold(c, acc, Lines(Body(c, taskId, contextId, es))) == acc + Texts(es)
    decreases |es|
  {
    if es == [] {
      assert [""][1..] == [] && SendLine("") == [];
      assert acc + "" == acc;
    } else {
      SendFirst(c, taskId, contextId, acc, es);
      SendFoldStream(c, taskId, contextId, acc + TextOf(es[0]), es[1..]);
      Assoc(acc, TextOf(es[0]), Texts(es[1..]));
    }
  }

  lemma SendLast(c: Codec, taskId: string, contextId: string, acc: string, last: L.Event)
    requires Readable(c, taskId, contextId, [last]) && last.Completed?
    ensures SendFold(c, acc, Lines(Body(c, taskId, contextId, [last]))) == if acc == "" then last.text else acc
  {
    assert [last][1..] == [];
    assert Wires(taskId, contextId, [last]) == [Wire(taskId, contextId, last)] + [];
    SendEvent(c, taskId, contextId, acc, last, []);
    assert [""][1..] == [] && SendLine("") == [];
    assert acc + "" == acc;
  }

  /** With the completed status last, it adds nothing to text that was streamed. */
  lemma {:induction false} SendFoldCompleted(c: Codec, taskId: string, contextId: string, acc: string, es: seq<L.Event>,
                                             last: L.Event)
    requires Readable(c, taskId, contextId, es + [last])
    requires last.Completed? && forall i :: 0 <= i < |es| ==> !es[i].Completed?
    ensures var text := acc + Texts(es);
            SendFold(c, acc, Lines(Body(c, taskId, contextId, es + [last]))) == if text == "" then last.text else text
    decreases |es|
  {
    if es == [] {
      assert es + [last] == [last];
      SendLast(c, taskId, contextId, acc, last);
      assert acc + "" == acc;
    } else {
      var s := es + [last];
      assert s[0] == es[0] && s[1..] == es[1..] + [last];
      SendFirst(c, taskId, contextId, acc, s);
      SendFoldCompleted(c, taskId, contextId, acc + TextOf(es[0]), es[1..], last);
      Assoc(acc, TextOf(es[0]), Texts(es[1..]));
    }
  }

  lemma SendOnCompleted(c: Codec, taskId: string, contextId: string, before: seq<L.Event>, last: L.Event)
    requires Readable(c, taskId, contextId, before + [last])
    requires last.Completed? && forall i :: 0 <= i < |before| ==> !before[i].Completed?
    requires HasSuffix(Texts(before + [last]), last.text)
    ensures var text := Texts(before + [last]);
            SendFold(c, "", Lines(Body(c, taskId, contextId, before + [last]))) == text
  {
    SendFoldCompleted(c, taskId, contextId, "", before, last);
    TextsAppend(before, [last]);
    TextsOne(last);
    var text := Texts(before);
    assert "" + text == text && text + "" == text;
  }

  lemma SendOnStream(c: Codec, taskId: string, contextId: string, before: seq<L.Event>, last: L.Event)
    requires Readable(c, taskId, contextId, before + [last]) && forall i :: 0 <= i < |before| ==> !before[i].Completed?
    requires last.Completed? ==> HasSuffix(Texts(before + [last]), last.text)
    ensures SendFold(c, "", Lines(Body(c, taskId, contextId, before + [last]))) == Texts(before + [last])
  {
    if last.Completed? {
      SendOnCompleted(c, taskId, contextId, before, last);
    } else {
      SendFoldStream(c, taskId, contextId, "", before + [last]);
      var text := Texts(before + [last]);
      assert "" + text == text;
    }
  }

  /** On the stream of every run of the engine, `send_to_agent` returns the concatenation of the text
      deltas, or the whole body when there are none; so the three extractors agree up to outer
      trimming whenever the text is not blank. */
  lemma SendAgreesOnRuns(c: Codec, cfg: L.Config, w: L.World, stored: Option<seq<Row>>, userText: string,
                         rows: seq<Row>, taskId: string, contextId: string)
    requires Readable(c, taskId, contextId, L.Handled(cfg, w, stored, userText,
                                                      L.State([], rows, [], [], [])).st.events)
    requires RejectsFrames(c)
    ensures var es := L.Handled(cfg, w, stored, userText, L.State([], rows, [], [], [])).st.events;
            var body := Body(c, taskId, contextId, es);
            && SendText(c, body) == (if Texts(es) != "" then Texts(es) else body)
            && (TrimSpace(Texts(es)) != "" ==> LineText(c, body) == FrameText(c, body) == TrimSpace(SendText(c, body)))
  {
    var es := L.Handled(cfg, w, stored, userText, L.State([], rows, [], [], [])).st.events;
    StreamIsGrammatical(cfg, w, stored, userText, rows);
    AcceptedStream(es);
    CompletedTextWasStreamed(cfg, w, stored, userText, rows);
    var n := |es| - 1;
    assert es == es[..n] + [es[n]];
    SendOnStream(c, taskId, contextId, es[..n], es[n]);
    FrameAndLineAgree(c, taskId, contextId, es);
  }
}
