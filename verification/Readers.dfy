/** The two provider stream readers: lines of a response in, stream events out.  The OpenAI reader
    reassembles tool-call fragments per index; the Anthropic reader one content block at a time. */
module Readers {
  import opened GoStrings
  import opened Json
  import opened Transcript
  import opened ToolLoop

  /** `sseData`: exactly one space after the colon is dropped. */
  function SseData(line: string): Option<string> {
    if !("data:" <= line) then None
    else
      var data := line[5..];
      Some(if data != "" && data[0] == ' ' then data[1..] else data)
  }

  /** What the loop bodies make of a line; `C` is the decoded payload. */
  datatype Input<C> = Skip | DoneMark | Bad | Data(chunk: C)

  // ---- OpenAI

  datatype Fragment = Fragment(index: int, id: string, name: string, arguments: string)

  datatype Choice = Choice(reasoning: string, content: string, calls: seq<Fragment>, finish: Option<string>)

  /** `choices` of a decoded chunk; only the first counts. */
  datatype Chunk = Chunk(choices: seq<Choice>)

  function OpenInput(decode: string -> Option<Chunk>, line: string): Input<Chunk> {
    match SseData(line)
    case None => Skip
    case Some(data) =>
      if TrimSpace(data) == "" then Skip
      else if data == "[DONE]" then DoneMark
      else match decode(data) case None => Bad case Some(c) => Data(c)
  }

  /** One fragment into the `toolCalls` map. */
  function Merged(calls: map<int, ToolCall>, f: Fragment): map<int, ToolCall> {
    var existing := if f.index in calls then calls[f.index] else ToolCall(f.id, f.name, "");
    calls[f.index := ToolCall(if f.id != "" then f.id else existing.id,
                              if f.name != "" then f.name else existing.name,
                              existing.arguments + f.arguments)]
  }

  function MergedAll(calls: map<int, ToolCall>, fs: seq<Fragment>): map<int, ToolCall>
    decreases |fs|
  {
    if fs == [] then calls else MergedAll(Merged(calls, fs[0]), fs[1..])
  }

  /** Go iterates over a map in an arbitrary order: `order` is that order. */
  type Order = map<int, ToolCall> -> seq<int>

  predicate Distinct(ks: seq<int>) {
    forall i, j :: 0 <= i < j < |ks| ==> ks[i] != ks[j]
  }

  ghost predicate IsOrder(order: Order) {
    forall m: map<int, ToolCall> :: Distinct(order(m)) && (forall k :: k in order(m) <==> k in m)
  }

  function Flushed(calls: map<int, ToolCall>, keys: seq<int>): seq<StreamItem> {
    if keys == [] then []
    else (if keys[0] in calls then [Call(calls[keys[0]])] else []) + Flushed(calls, keys[1..])
  }

  datatype Open = Open(sent: seq<StreamItem>, calls: map<int, ToolCall>)

  function OpenChunk(order: Order, st: Open, c: Chunk): Open {
    if c.choices == [] then st
    else
      var d := c.choices[0];
      var calls := MergedAll(st.calls, d.calls);
      var sent := st.sent + (if d.reasoning != "" then [Reasoning(d.reasoning)] else [])
                          + (if d.content != "" then [Text(d.content)] else []);
      if d.finish == Some("tool_calls") then Open(sent + Flushed(calls, order(calls)), map[]) else Open(sent, calls)
  }

  /** Everything the reader sends, from state `st` on; `scanFails` says that the scanner holds an error
      when the loop is left, which counts before `[DONE]`. */
  function OpenSent(order: Order, st: Open, inputs: seq<Input<Chunk>>, scanFails: bool): seq<StreamItem>
    decreases |inputs|
  {
    if inputs == [] then
      st.sent + [Fail(if scanFails then "openai stream read error" else "openai stream ended before [DONE]")]
    else
      match inputs[0]
      case Skip => OpenSent(order, st, inputs[1..], scanFails)
      case DoneMark => st.sent + [if scanFails then Fail("openai stream read error") else Done]
      case Bad => st.sent + [Fail("openai stream malformed JSON")]
      case Data(c) => OpenSent(order, OpenChunk(order, st, c), inputs[1..], scanFails)
  }

  function OpenInputs(decode: string -> Option<Chunk>, lines: seq<string>): (r: seq<Input<Chunk>>)
    ensures |r| == |lines|
  {
    seq(|lines|, i requires 0 <= i < |lines| => OpenInput(decode, lines[i]))
  }

  method OpenReadStream(decode: string -> Option<Chunk>, order: Order, lines: seq<string>, scanFails: bool)
    returns (sent: seq<StreamItem>)
    ensures sent == OpenSent(order, Open([], map[]), OpenInputs(decode, lines), scanFails)
  {
    sent := [];
    var toolCalls: map<int, ToolCall> := map[];
    var seenDone := false;
    ghost var inputs := OpenInputs(decode, lines);
    var n := 0;
    while n < |lines|
      invariant 0 <= n <= |lines| && !seenDone
      invariant OpenSent(order, Open(sent, toolCalls), inputs[n..], scanFails)
                == OpenSent(order, Open([], map[]), inputs, scanFails)
    {
      assert inputs[n..][0] == inputs[n] && inputs[n..][1..] == inputs[n + 1..];
      var line := lines[n];
      n := n + 1;
      var data := SseData(line);
      if data.None? || TrimSpace(data.value) == "" {
        continue;
      }
      if data.value == "[DONE]" {
        seenDone := true;
        break;
      }
      var chunk := decode(data.value);
      if chunk.None? {
        sent := sent + [Fail("openai stream malformed JSON")];
        return;
      }
      sent, toolCalls := HandleChunk(order, sent, toolCalls, chunk.value);
    }
    if scanFails {
      sent := sent + [Fail("openai stream read error")];
      return;
    }
    if seenDone {
      sent := sent + [Done];
      return;
    }
    sent := sent + [Fail("openai stream ended before [DONE]")];
  }

  method HandleChunk(order: Order, before: seq<StreamItem>, calls: map<int, ToolCall>, chunk: Chunk)
    returns (sent: seq<StreamItem>, toolCalls: map<int, ToolCall>)
    ensures Open(sent, toolCalls) == OpenChunk(order, Open(before, calls), chunk)
  {
    sent, toolCalls := before, calls;
    if |chunk.choices| == 0 {
      return;
    }
    var delta := chunk.choices[0];
    if delta.reasoning != "" {
      sent := sent + [Reasoning(delta.reasoning)];
    }
    if delta.content != "" {
      sent := sent + [Text(delta.content)];
    }
    toolCalls := Accumulate(toolCalls, delta.calls);
    if delta.finish == Some("tool_calls") {
      var emitted := Emit(toolCalls, order(toolCalls));
      sent := sent + emitted;
      toolCalls := map[];
    }
  }

  /** The inner loop over the fragments of a chunk. */
  method Accumulate(calls: map<int, ToolCall>, fs: seq<Fragment>) returns (r: map<int, ToolCall>)
    ensures r == MergedAll(calls, fs)
  {
    r := calls;
    for i := 0 to |fs|
      invariant MergedAll(r, fs[i..]) == MergedAll(calls, fs)
    {
      assert fs[i..][0] == fs[i] && fs[i..][1..] == fs[i + 1..];
      var f := fs[i];
      var existing := ToolCall(f.id, f.name, "");
      if f.index in r {
        existing := r[f.index];
      }
      if f.id != "" {
        existing := existing.(id := f.id);
      }
      if f.name != "" {
        existing := existing.(name := f.name);
      }
      r := r[f.index := existing.(arguments := existing.arguments + f.arguments)];
    }
  }

  method Emit(calls: map<int, ToolCall>, keys: seq<int>) returns (sent: seq<StreamItem>)
    ensures sent == Flushed(calls, keys)
  {
    sent := [];
    for i := 0 to |keys|
      invariant sent + Flushed(calls, keys[i..]) == Flushed(calls, keys)
    {
      assert keys[i..][0] == keys[i] && keys[i..][1..] == keys[i + 1..];
      var one := if keys[i] in calls then [Call(calls[keys[i]])] else [];
      Assoc(sent, one, Flushed(calls, keys[i + 1..]));
      sent := sent + one;
    }
  }

  // ---- Anthropic

  datatype Block =
    | BlockStart(tool: Option<ToolCall>)
    | TextPiece(text: string)
    | JsonPiece(partial: string)
    | BlockStop
    | MessageStop
    | Other

  function BlockInput(decode: string -> Option<Block>, line: string): Input<Block> {
    match SseData(line)
    case None => Skip
    case Some(data) =>
      if TrimSpace(data) == "" then Skip
      else match decode(data) case None => Bad case Some(b) => Data(b)
  }

  datatype Anth = Anth(sent: seq<StreamItem>, current: Option<ToolCall>)

  function AnthBlock(st: Anth, b: Block): Anth {
    match b
    case BlockStart(Some(tool)) => st.(current := Some(ToolCall(tool.id, tool.name, "")))
    case TextPiece(s) => if s != "" then st.(sent := st.sent + [Text(s)]) else st
    case JsonPiece(p) =>
      if st.current.Some?
      then st.(current := Some(st.current.value.(arguments := st.current.value.arguments + p)))
      else st
    case BlockStop => if st.current.Some? then Anth(st.sent + [Call(st.current.value)], None) else st
    case _ => st
  }

  function AnthSent(st: Anth, inputs: seq<Input<Block>>, scanFails: bool): seq<StreamItem>
    decreases |inputs|
  {
    if inputs == [] then
      st.sent + [Fail(if scanFails then "anthropic stream read error"
                      else "anthropic stream ended before message_stop")]
    else
      match inputs[0]
      case Bad => st.sent + [Fail("anthropic stream malformed JSON")]
      case Data(MessageStop) => st.sent + [Done]
      case Data(b) => AnthSent(AnthBlock(st, b), inputs[1..], scanFails)
      case _ => AnthSent(st, inputs[1..], scanFails)
  }

  function BlockInputs(decode: string -> Option<Block>, lines: seq<string>): (r: seq<Input<Block>>)
    ensures |r| == |lines|
  {
    seq(|lines|, i requires 0 <= i < |lines| => BlockInput(decode, lines[i]))
  }

  method AnthReadStream(decode: string -> Option<Block>, lines: seq<string>, scanFails: bool)
    returns (sent: seq<StreamItem>)
    ensures sent == AnthSent(Anth([], None), BlockInputs(decode, lines), scanFails)
  {
    sent := [];
    var current: Option<ToolCall> := None;
    ghost var inputs := BlockInputs(decode, lines);
    var n := 0;
    while n < |lines|
      invariant 0 <= n <= |lines|
      invariant AnthSent(Anth(sent, current), inputs[n..], scanFails) == AnthSent(Anth([], None), inputs, scanFails)
    {
      assert inputs[n..][0] == inputs[n] && inputs[n..][1..] == inputs[n + 1..];
      var data := SseData(lines[n]);
      n := n + 1;
      if data.None? || TrimSpace(data.value) == "" {
        continue;
      }
      var evt := decode(data.value);
      if evt.None? {
        sent := sent + [Fail("anthropic stream malformed JSON")];
        return;
      }
      match evt.value {
        case BlockStart(tool) =>
          if tool.Some? {
            current := Some(ToolCall(tool.value.id, tool.value.name, ""));
          }
        case TextPiece(text) =>
          if text != "" {
            sent := sent + [Text(text)];
          }
        case JsonPiece(partial) =>
          if current.Some? && partial != "" {
            current := Some(current.value.(arguments := current.value.arguments + partial));
          } else if current.Some? {
            assert current.value.arguments + partial == current.value.arguments;
          }
        case BlockStop =>
          if current.Some? {
            sent := sent + [Call(current.value)];
            current := None;
          }
        case MessageStop =>
          sent := sent + [Done];
          return;
        case Other =>
      }
    }
    sent := sent + [Fail(if scanFails then "anthropic stream read error"
                         else "anthropic stream ended before message_stop")];
  }
}
