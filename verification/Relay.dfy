/** The SSE branch of the agent proxy: it forwards every byte, records each data frame, and works
    out the text of the final response while bytes arrive in arbitrary reads. */
module Relay {
  import opened GoStrings
  import opened Json
  import opened Framing

  /** `extractPartsText`. */
  function PartTexts(parts: seq<Value>): seq<string> {
    if parts == [] then []
    else
      (match parts[0]
       case Obj(m) => (match StringAt(m, "text") case Some(t) => [t] case None => [])
       case _ => [])
      + PartTexts(parts[1..])
  }

  function PartsText(msg: map<string, Value>): string {
    if "parts" in msg && msg["parts"].Arr? then Join(PartTexts(msg["parts"].items), "\n") else ""
  }

  function NestedObject(m: map<string, Value>, path: seq<string>): Option<map<string, Value>>
    decreases |path|
  {
    if path == [] then Some(m)
    else
      match ObjectAt(m, path[0])
      case None => None
      case Some(inner) => NestedObject(inner, path[1..])
  }

  /** `extractTextFromSSEData` on a decoded event. */
  function WrappedText(evt: map<string, Value>): string {
    match ObjectAt(evt, "message")
    case Some(msg) => PartsText(msg)
    case None =>
      match ObjectAt(evt, "result")
      case None => ""
      case Some(result) =>
        match ObjectAt(result, "message")
        case Some(msg) => PartsText(msg)
        case None =>
          match NestedObject(result, ["artifactUpdate", "artifact"])
          case Some(artifact) => PartsText(artifact)
          case None =>
            match NestedObject(result, ["statusUpdate", "status", "message"])
            case Some(msg) => PartsText(msg)
            case None => ""
  }

  datatype Progress = Progress(traces: seq<string>, delta: string, last: string)

  /** One closed frame of the upstream response. */
  function Recorded(c: Codec, p: Progress, frame: string): Progress {
    var data := Join(DataLines(Lines(frame)), "\n");
    if data == "" then p
    else
      var q := p.(traces := p.traces + [data]);
      match DecodeObject(c, data)
      case None => q
      case Some(evt) =>
        if DeltaOf(evt, "text.delta", "text") != "" then q.(delta := q.delta + DeltaOf(evt, "text.delta", "text"))
        else if WrappedText(evt) != "" then q.(last := WrappedText(evt))
        else q
  }

  function RecordedAll(c: Codec, p: Progress, frames: seq<string>): Progress
    decreases |frames|
  {
    if frames == [] then p else RecordedAll(c, Recorded(c, p, frames[0]), frames[1..])
  }

  lemma {:induction false} RecordedAllAppend(c: Codec, p: Progress, a: seq<string>, b: seq<string>)
    ensures RecordedAll(c, p, a + b) == RecordedAll(c, RecordedAll(c, p, a), b)
    decreases |a|
  {
    if a == [] {
      assert a + b == b;
    } else {
      var s := a + b;
      assert s[0] == a[0] && s[1..] == a[1..] + b;
      RecordedAllAppend(c, Recorded(c, p, a[0]), a[1..], b);
    }
  }

  /** What the proxy leaves behind: bytes sent on, one trace per data frame, the message it saved,
      and the task states it wrote, in order. */
  datatype Outcome = Outcome(relayed: string, traces: seq<string>, message: Option<string>, states: seq<string>)

  function Concluded(response: string, p: Progress, readFailed: bool): Outcome {
    var text := if p.delta != "" then p.delta else p.last;
    Outcome(response, p.traces,
            if text != "" then Some(text) else None,
            (if text != "" then ["RESPONDED"] else [])
            + (if text == "" || readFailed then [if readFailed then "ERROR" else "RESPONDED"] else []))
  }

  /** The outcome as a function of the whole response and of how reading it ended. */
  function RelayOutcome(c: Codec, response: string, readFailed: bool): Outcome {
    Concluded(response, RecordedAll(c, Progress([], "", ""), Frames(response).frames), readFailed)
  }

  /** Takes every closed frame off the remainder and records it. */
  method Drain(c: Codec, p: Progress, buffered: string) returns (q: Progress, remainder: string)
    ensures q == RecordedAll(c, p, Frames(buffered).frames) && remainder == Frames(buffered).rest
  {
    var traces, deltaText, finalText := p.traces, p.delta, p.last;
    remainder := buffered;
    while true
      invariant RecordedAll(c, Progress(traces, deltaText, finalText), Frames(remainder).frames)
                == RecordedAll(c, p, Frames(buffered).frames)
      invariant Frames(remainder).rest == Frames(buffered).rest
      decreases |remainder|
    {
      var frameEnd := FrameEnd(remainder);
      if frameEnd < 0 {
        break;
      }
      var frame := remainder[..frameEnd];
      ghost var was := remainder;
      remainder := remainder[frameEnd + 2..];
      assert Frames(was).frames[0] == frame && Frames(was).frames[1..] == Frames(remainder).frames;
      var lines := CollectDataLines(frame);
      var data := Join(lines, "\n");
      if data == "" {
        continue;
      }
      traces := traces + [data];
      var evt := DecodeObject(c, data);
      if evt.Some? {
        var delta := DeltaOf(evt.value, "text.delta", "text");
        var text := WrappedText(evt.value);
        if delta != "" {
          deltaText := deltaText + delta;
        } else if text != "" {
          finalText := text;
        }
      }
    }
    q := Progress(traces, deltaText, finalText);
  }

  lemma RecordedSplit(c: Codec, p: Progress, a: string, b: string)
    ensures var x := Frames(a); var y := Frames(x.rest + b);
            RecordedAll(c, RecordedAll(c, p, x.frames), y.frames) == RecordedAll(c, p, Frames(a + b).frames)
            && y.rest == Frames(a + b).rest
  {
    FramesSplit(a, b);
    RecordedAllAppend(c, p, Frames(a).frames, Frames(Frames(a).rest + b).frames);
  }

  lemma ConcatPush(chunks: seq<string>, i: nat)
    requires i < |chunks|
    ensures Concat(chunks[..i + 1]) == Concat(chunks[..i]) + chunks[i]
  {
    assert chunks[..i + 1] == chunks[..i] + [chunks[i]];
    ConcatAppend(chunks[..i], [chunks[i]]);
    assert Concat([chunks[i]]) == chunks[i] + Concat([]);
  }

  /** The read loop.  `chunks` is what successive reads of the body return; the last one ends in EOF
      or in an error.  The result depends on the bytes only, not on where the reads cut them. */
  method RelayLoop(c: Codec, chunks: seq<string>, readFailed: bool) returns (out: Outcome)
    ensures out == RelayOutcome(c, Concat(chunks), readFailed)
  {
    var relayed, remainder := "", "";
    var p := Progress([], "", "");
    for i := 0 to |chunks|
      invariant relayed == Concat(chunks[..i])
      invariant remainder == Frames(relayed).rest
      invariant p == RecordedAll(c, Progress([], "", ""), Frames(relayed).frames)
    {
      RecordedSplit(c, Progress([], "", ""), relayed, chunks[i]);
      ConcatPush(chunks, i);
      relayed := relayed + chunks[i];
      p, remainder := Drain(c, p, remainder + chunks[i]);
    }
    assert chunks[..|chunks|] == chunks;
    out := Conclude(relayed, p, readFailed);
  }

  /** After the read loop: the message that is saved and the states that are written. */
  method Conclude(relayed: string, p: Progress, readFailed: bool) returns (out: Outcome)
    ensures out == Concluded(relayed, p, readFailed)
  {
    var finalText := p.last;
    if p.delta != "" {
      finalText := p.delta;
    }
    var states: seq<string> := [];
    var message: Option<string> := None;
    if finalText != "" {
      message := Some(finalText);
      states := states + ["RESPONDED"];
    }
    var finalState := "RESPONDED";
    if readFailed {
      finalState := "ERROR";
    }
    if finalText == "" || readFailed {
      states := states + [finalState];
    }
    out := Outcome(relayed, p.traces, message, states);
  }

  /** The relay loop and the group stream writer collect the same text from the same frames. */
  lemma {:induction false} RelayAgreesWithWriter(c: Codec, p: Progress, v: View, frames: seq<string>)
    requires c.decode("") == None && p.delta == v.text
    ensures RecordedAll(c, p, frames).delta == HandledAll(c, v, frames).text
    decreases |frames|
  {
    if frames != [] {
      var data := DataLines(Lines(frames[0]));
      assert data == [] ==> Join(data, "\n") == "";
      assert v.text + "" == v.text;
      RelayAgreesWithWriter(c, Recorded(c, p, frames[0]), Handled(c, v, frames[0]), frames[1..]);
    }
  }
}
