/** The frame-wise and the line-wise reader of a reply, on arbitrary bytes: what each collects, exactly
    when they collect the same, and inputs on which they part. */
module BodyReaders {
  import opened GoStrings
  import opened Json
  import opened Framing
  import opened Printer
  import opened Relay
  import opened Extractors
  import L = ToolLoop

  // ---- What each reader collects

  /** The text delta of one payload. */
  function PayloadDelta(c: Codec, data: string): string {
    match DecodeObject(c, data) case None => "" case Some(evt) => DeltaOf(evt, "text.delta", "text")
  }

  /** What the frame-wise reader takes from a closed frame: its data lines joined are one payload. */
  function FrameDelta(c: Codec, frame: string): string {
    var data := DataLines(Lines(frame));
    if data == [] then "" else PayloadDelta(c, Join(data, "\n"))
  }

  function FramesDelta(c: Codec, frames: seq<string>): string {
    if frames == [] then "" else FrameDelta(c, frames[0]) + FramesDelta(c, frames[1..])
  }

  /** What the line-wise reader takes: each data line is a payload of its own. */
  function DataDelta(c: Codec, data: seq<string>): string {
    if data == [] then "" else (if data[0] == "" then "" else PayloadDelta(c, data[0])) + DataDelta(c, data[1..])
  }

  function LinesDelta(c: Codec, bytes: string): string {
    DataDelta(c, DataLines(Lines(bytes)))
  }

  lemma {:induction false} HandledCollects(c: Codec, v: View, frames: seq<string>)
    ensures HandledAll(c, v, frames).text == v.text + FramesDelta(c, frames)
    decreases |frames|
  {
    if frames == [] {
      assert v.text + "" == v.text;
    } else {
      var w := Handled(c, v, frames[0]);
      assert v.text + "" == v.text;
      assert w.text == v.text + FrameDelta(c, frames[0]);
      HandledCollects(c, w, frames[1..]);
      Assoc(v.text, FrameDelta(c, frames[0]), FramesDelta(c, frames[1..]));
    }
  }

  /** The last wrapped text among the payloads. */
  function LastWrapped(c: Codec, data: seq<string>): string {
    if data == [] then ""
    else
      var later := LastWrapped(c, data[1..]);
      if later != "" || data[0] == "" then later
      else match DecodeObject(c, data[0]) case None => "" case Some(evt) => WrappedText(evt)
  }

  function LinesWrapped(c: Codec, bytes: string): string {
    LastWrapped(c, DataLines(Lines(bytes)))
  }

  lemma {:induction false} ScannedWraps(c: Codec, s: Scan, data: seq<string>)
    ensures var w := LastWrapped(c, data); Scanned(c, s, data).wrapped == if w != "" then w else s.wrapped
    decreases |data|
  {
    if data != [] {
      ScannedWraps(c, ScannedData(c, s, data[0]), data[1..]);
    }
  }

  lemma {:induction false} ScannedCollects(c: Codec, s: Scan, data: seq<string>)
    ensures Scanned(c, s, data).streamed == s.streamed + DataDelta(c, data)
    decreases |data|
  {
    if data == [] {
      assert s.streamed + "" == s.streamed;
    } else {
      var t := ScannedData(c, s, data[0]);
      var d := if data[0] == "" then "" else PayloadDelta(c, data[0]);
      assert s.streamed + "" == s.streamed;
      assert t.streamed == s.streamed + d;
      ScannedCollects(c, t, data[1..]);
      Assoc(s.streamed, d, DataDelta(c, data[1..]));
    }
  }

  /** What a body yields line by line: its deltas, else its last wrapped text, else its response text. */
  function Fallback(c: Codec, body: string): string {
    var s, w := TrimSpace(LinesDelta(c, body)), LinesWrapped(c, body);
    if s != "" then s else if TrimSpace(w) != "" then w else ResponseText(c, body)
  }

  /** The two reply texts, by what the readers collect: each falls back when that is blank. */
  lemma TextsByCollection(c: Codec, body: string)
    ensures var f := TrimSpace(FramesDelta(c, Frames(body).frames));
            FrameText(c, body) == (if f != "" then f else Fallback(c, body)) && LineText(c, body) == Fallback(c, body)
  {
    LineTextIsFallback(c, body);
    HandledCollects(c, View("", "", []), Frames(body).frames);
    var f := FramesDelta(c, Frames(body).frames);
    assert "" + f == f;
  }

  lemma LineTextIsFallback(c: Codec, body: string)
    ensures LineText(c, body) == Fallback(c, body)
  {
    var data := DataLines(Lines(body));
    ScannedWraps(c, NOTHING, data);
    ScannedCollects(c, NOTHING, data);
    var s := DataDelta(c, data);
    assert "" + s == s;
    assert Scanned(c, NOTHING, data) == Scan(s, LastWrapped(c, data));
  }

  // ---- Lines within frames

  lemma {:induction false} DataDeltaAppend(c: Codec, a: seq<string>, b: seq<string>)
    ensures DataDelta(c, a + b) == DataDelta(c, a) + DataDelta(c, b)
  {
    if a == [] {
      assert a + b == b && "" + DataDelta(c, b) == DataDelta(c, b);
    } else {
      var s := a + b;
      assert s[0] == a[0] && s[1..] == a[1..] + b;
      DataDeltaAppend(c, a[1..], b);
      Assoc(if a[0] == "" then "" else PayloadDelta(c, a[0]), DataDelta(c, a[1..]), DataDelta(c, b));
    }
  }

  /** The line-wise reader takes from a frame, its blank line and the rest what it takes from each. */
  lemma FrameThenRest(c: Codec, frame: string, rest: string)
    ensures LinesDelta(c, frame + "\n\n" + rest) == LinesDelta(c, frame) + LinesDelta(c, rest)
  {
    assert frame + "\n\n" + rest == frame + "\n" + ("" + "\n" + rest);
    LinesCut(frame, "" + "\n" + rest);
    LinesCut("", rest);
    assert Lines("") == [""] && DataLine("") == [];
    assert DataLines([""]) == DataLine("") + DataLines([]) == [];
    DataLinesAppend([""], Lines(rest));
    DataLinesAppend(Lines(frame), Lines("") + Lines(rest));
    assert [] + DataLines(Lines(rest)) == DataLines(Lines(rest));
    DataDeltaAppend(c, DataLines(Lines(frame)), DataLines(Lines(rest)));
  }

  /** The bytes of closed frames. */
  function Closed(frames: seq<string>): string {
    if frames == [] then "" else frames[0] + "\n\n" + Closed(frames[1..])
  }

  lemma CutAt(s: string, i: nat)
    requires i + 2 <= |s| && s[i] == '\n' && s[i + 1] == '\n'
    ensures s == s[..i] + "\n\n" + s[i + 2..]
  {
  }

  lemma ClosedCons(frame: string, frames: seq<string>)
    ensures Closed([frame] + frames) == frame + "\n\n" + Closed(frames)
  {
    assert ([frame] + frames)[1..] == frames;
  }

  lemma {:induction false} BytesOfFrames(s: string)
    ensures s == Closed(Frames(s).frames) + Frames(s).rest
    decreases |s|
  {
    var i := FrameEnd(s);
    if i < 0 {
      assert "" + s == s;
    } else {
      BytesOfFrames(s[i + 2..]);
      var tail := Frames(s[i + 2..]);
      CutAt(s, i);
      ClosedCons(s[..i], tail.frames);
      Assoc(s[..i] + "\n\n", Closed(tail.frames), tail.rest);
    }
  }

  /** What the line-wise reader takes from the frames one by one. */
  function PerFrame(c: Codec, frames: seq<string>): string {
    if frames == [] then "" else LinesDelta(c, frames[0]) + PerFrame(c, frames[1..])
  }

  lemma {:induction false} LinesOfClosed(c: Codec, frames: seq<string>, rest: string)
    ensures LinesDelta(c, Closed(frames) + rest) == PerFrame(c, frames) + LinesDelta(c, rest)
  {
    if frames == [] {
      assert "" + rest == rest && "" + LinesDelta(c, rest) == LinesDelta(c, rest);
    } else {
      var tail := Closed(frames[1..]) + rest;
      assert Closed(frames) + rest == frames[0] + "\n\n" + tail;
      FrameThenRest(c, frames[0], tail);
      LinesOfClosed(c, frames[1..], rest);
      Assoc(LinesDelta(c, frames[0]), PerFrame(c, frames[1..]), LinesDelta(c, rest));
    }
  }

  // ---- The condition on the bytes

  /** Joined or line by line, the data lines of every closed frame carry the same delta, and the bytes
      behind the last blank line carry none. */
  predicate SameDeltas(c: Codec, body: string) {
    var f := Frames(body);
    && (forall i :: 0 <= i < |f.frames| ==> FrameDelta(c, f.frames[i]) == LinesDelta(c, f.frames[i]))
    && LinesDelta(c, f.rest) == ""
  }

  /** Both readers have collected the same text from closed frames. */
  predicate SameSoFar(c: Codec, frames: seq<string>) {
    FramesDelta(c, frames) == LinesDelta(c, Closed(frames))
  }

  /** At the blank line behind every frame, and at the end, both readers have collected the same text. */
  ghost predicate InStep(c: Codec, body: string) {
    var f := Frames(body);
    && (forall n :: 0 <= n <= |f.frames| ==> SameSoFar(c, f.frames[..n]))
    && FramesDelta(c, f.frames) == LinesDelta(c, body)
  }

  lemma {:induction false} FramesDeltaPush(c: Codec, a: seq<string>, f: string)
    ensures FramesDelta(c, a + [f]) == FramesDelta(c, a) + FrameDelta(c, f)
    ensures PerFrame(c, a + [f]) == PerFrame(c, a) + LinesDelta(c, f)
  {
    var x, y := FrameDelta(c, f), LinesDelta(c, f);
    if a == [] {
      assert a + [f] == [f] && [f][1..] == [];
      assert x + "" == x && "" + x == x && y + "" == y && "" + y == y;
    } else {
      var s := a + [f];
      assert s[0] == a[0] && s[1..] == a[1..] + [f];
      FramesDeltaPush(c, a[1..], f);
      Assoc(FrameDelta(c, a[0]), FramesDelta(c, a[1..]), x);
      Assoc(LinesDelta(c, a[0]), PerFrame(c, a[1..]), y);
    }
  }

  lemma LinesOfPrefix(c: Codec, frames: seq<string>)
    ensures LinesDelta(c, Closed(frames)) == PerFrame(c, frames)
  {
    LinesOfClosed(c, frames, "");
    assert Closed(frames) + "" == Closed(frames);
    assert Lines("") == [""] && DataLines([""]) == DataLine("") + DataLines([]) == [];
    assert PerFrame(c, frames) + "" == PerFrame(c, frames);
  }

  lemma {:induction false} SamePerFrame(c: Codec, frames: seq<string>)
    requires forall i :: 0 <= i < |frames| ==> FrameDelta(c, frames[i]) == LinesDelta(c, frames[i])
    ensures FramesDelta(c, frames) == PerFrame(c, frames)
  {
    if frames != [] {
      SamePerFrame(c, frames[1..]);
    }
  }

  lemma Cancel(a: string, x: string, y: string)
    requires a + x == a + y
    ensures x == y
  {
    assert (a + x)[|a|..] == x && (a + y)[|a|..] == y;
  }

  lemma StepsGiveFrame(c: Codec, before: seq<string>, frame: string)
    requires FramesDelta(c, before) == PerFrame(c, before)
    requires FramesDelta(c, before + [frame]) == PerFrame(c, before + [frame])
    ensures FrameDelta(c, frame) == LinesDelta(c, frame)
  {
    FramesDeltaPush(c, before, frame);
    Cancel(FramesDelta(c, before), FrameDelta(c, frame), LinesDelta(c, frame));
  }

  lemma EndOfBody(c: Codec, body: string)
    ensures LinesDelta(c, body) == PerFrame(c, Frames(body).frames) + LinesDelta(c, Frames(body).rest)
  {
    BytesOfFrames(body);
    LinesOfClosed(c, Frames(body).frames, Frames(body).rest);
  }

  /** The two readers stay in step on a body if and only if the condition on its bytes holds. */
  lemma InStepIffSameDeltas(c: Codec, body: string)
    ensures InStep(c, body) <==> SameDeltas(c, body)
  {
    var frames, rest := Frames(body).frames, Frames(body).rest;
    EndOfBody(c, body);
    assert frames[..|frames|] == frames;
    if SameDeltas(c, body) {
      SameDeltasKeepStep(c, body);
    }
    if InStep(c, body) {
      SameSoFarGivesFrames(c, frames);
      LinesOfPrefix(c, frames[..|frames|]);
      var all := PerFrame(c, frames);
      assert all + "" == all;
      Cancel(all, LinesDelta(c, rest), "");
    }
  }

  lemma SameSoFarGivesFrames(c: Codec, frames: seq<string>)
    requires forall n :: 0 <= n <= |frames| ==> SameSoFar(c, frames[..n])
    ensures forall i :: 0 <= i < |frames| ==> FrameDelta(c, frames[i]) == LinesDelta(c, frames[i])
  {
    forall i | 0 <= i < |frames| ensures FrameDelta(c, frames[i]) == LinesDelta(c, frames[i]) {
      PrefixGivesFrame(c, frames, i);
    }
  }

  lemma SlicePush(frames: seq<string>, i: nat)
    requires i < |frames|
    ensures frames[..i + 1] == frames[..i] + [frames[i]]
  {
  }

  lemma PrefixGivesFrame(c: Codec, frames: seq<string>, i: nat)
    requires i < |frames| && SameSoFar(c, frames[..i]) && SameSoFar(c, frames[..i + 1])
    ensures FrameDelta(c, frames[i]) == LinesDelta(c, frames[i])
  {
    SlicePush(frames, i);
    PrefixesGiveFrame(c, frames[..i], frames[i], frames[..i + 1]);
  }

  lemma PrefixesGiveFrame(c: Codec, before: seq<string>, frame: string, now: seq<string>)
    requires now == before + [frame] && SameSoFar(c, before) && SameSoFar(c, now)
    ensures FrameDelta(c, frame) == LinesDelta(c, frame)
  {
    LinesOfPrefix(c, before);
    LinesOfPrefix(c, now);
    StepsGiveFrame(c, before, frame);
  }

  lemma SameDeltasKeepStep(c: Codec, body: string)
    requires SameDeltas(c, body)
    ensures InStep(c, body)
  {
    var frames := Frames(body).frames;
    forall n | 0 <= n <= |frames| ensures SameSoFar(c, frames[..n]) {
      SamePerFrame(c, frames[..n]);
      LinesOfPrefix(c, frames[..n]);
    }
    SamePerFrame(c, frames);
    EndOfBody(c, body);
    assert PerFrame(c, frames) + "" == PerFrame(c, frames);
  }

  /** On such bytes the two reply texts are equal. */
  lemma SameDeltasSameText(c: Codec, body: string)
    requires SameDeltas(c, body)
    ensures FrameText(c, body) == LineText(c, body)
  {
    SameDeltasKeepStep(c, body);
    TextsByCollection(c, body);
  }

  /** The reply texts are equal exactly when the deltas of the closed frames are blank, or are the deltas
      of the lines up to the ends, or, when the lines carry none, the last wrapped text or the response
      text.  A body without closed frames always reads the same. */
  lemma SameTextIff(c: Codec, body: string)
    ensures var f, s := TrimSpace(FramesDelta(c, Frames(body).frames)), TrimSpace(LinesDelta(c, body));
            var w := LinesWrapped(c, body);
            FrameText(c, body) == LineText(c, body) <==>
            f == "" || f == (if s != "" then s else if TrimSpace(w) != "" then w else ResponseText(c, body))
    ensures Frames(body).frames == [] ==> FrameText(c, body) == LineText(c, body)
  {
    TextsByCollection(c, body);
  }

  // ---- Printed streams meet the condition

  lemma PrintedFrameIsSame(c: Codec, e: Event)
    requires Framable(c, e)
    ensures FrameDelta(c, Frame(c, e)) == LinesDelta(c, Frame(c, e))
  {
    FrameData(c, e);
    var j := c.encode(Obj(Payload(e)));
    assert Join([j], "\n") == j && [j][1..] == [];
    assert DataDelta(c, [j]) == PayloadDelta(c, j) + DataDelta(c, []);
    assert PayloadDelta(c, j) + "" == PayloadDelta(c, j);
  }

  lemma SameDeltasCons(c: Codec, frame: string, s: string, tail: string)
    requires Frames(s) == Framed([frame] + Frames(tail).frames, Frames(tail).rest)
    requires FrameDelta(c, frame) == LinesDelta(c, frame) && SameDeltas(c, tail)
    ensures SameDeltas(c, s)
  {
    var whole, part := Frames(s).frames, Frames(tail).frames;
    assert forall i :: 0 <= i < |whole| ==> whole[i] == if i == 0 then frame else part[i - 1];
  }

  lemma {:induction false} PrintedIsSame(c: Codec, es: seq<Event>)
    requires AllFramable(c, es)
    ensures SameDeltas(c, Stream(c, es))
    decreases |es|
  {
    if es == [] {
      assert Frames("") == Framed([], "");
      assert Lines("") == [""] && DataLines([""]) == DataLine("") + DataLines([]) == [];
    } else {
      var tail := es[1..];
      assert es == [es[0]] + tail && Framable(c, es[0]);
      PrintedIsSame(c, tail);
      FramesOfStream(c, es[0], tail);
      PrintedFrameIsSame(c, es[0]);
      SameDeltasCons(c, Frame(c, es[0]), Stream(c, es), Stream(c, tail));
    }
  }

  /** Every engine stream, however it is cut into writes. */
  lemma EngineStreamsReadTheSame(c: Codec, taskId: string, contextId: string, es: seq<L.Event>)
    requires Sendable(c, taskId, contextId, es)
    ensures SameDeltas(c, Body(c, taskId, contextId, es))
  {
    WiresAreFramable(c, taskId, contextId, es);
    PrintedIsSame(c, Wires(taskId, contextId, es));
  }

  // ---- Bodies on which the readers part

  lemma DataOfLine(j: string)
    requires j != "" && Tight(j) && '\n' !in j
    ensures DataLines(Lines("data: " + j)) == [j]
  {
    LinesSingle("data: " + j);
    DataLineOf(j);
    assert DataLines(["data: " + j]) == DataLine("data: " + j) + DataLines([]);
  }

  function DataText(c: Codec, e: Event): string {
    "data: " + c.encode(Obj(Payload(e)))
  }

  lemma LineDeltaOf(c: Codec, j: string)
    requires j != "" && Tight(j) && '\n' !in j
    ensures LinesDelta(c, "data: " + j) == PayloadDelta(c, j)
  {
    DataOfLine(j);
    assert [j][1..] == [];
    assert DataDelta(c, [j]) == PayloadDelta(c, j) + DataDelta(c, []);
    assert PayloadDelta(c, j) + "" == PayloadDelta(c, j);
  }

  lemma UnclosedDelta(c: Codec, e: Event)
    requires Printable(c, e)
    ensures LinesDelta(c, DataText(c, e)) == DeltaOf(Payload(e), "text.delta", "text") && '\n' !in DataText(c, e)
  {
    LineDeltaOf(c, c.encode(Obj(Payload(e))));
    PayloadDecodes(c, e);
  }

  lemma PayloadDecodes(c: Codec, e: Event)
    requires Printable(c, e)
    ensures PayloadDelta(c, c.encode(Obj(Payload(e)))) == DeltaOf(Payload(e), "text.delta", "text")
  {
  }

  /** The condition is not needed for equal texts: an unclosed frame alone breaks it, and both versions
      return its text, because the frame-wise reader has nothing and falls back. */
  lemma EqualByFallback(c: Codec, e: Event)
    requires Printable(c, e) && DeltaOf(Payload(e), "text.delta", "text") != ""
    ensures var body := DataText(c, e); !SameDeltas(c, body) && FrameText(c, body) == LineText(c, body)
  {
    UnclosedDelta(c, e);
    assert FrameEnd(DataText(c, e)) < 0;
    SameTextIff(c, DataText(c, e));
  }

  lemma UnclosedCollects(c: Codec, e: Event, f: Event)
    requires Printable(c, e) && Printable(c, f)
    ensures var body := Printed(c, e) + DataText(c, f);
            var a, b := DeltaOf(Payload(e), "text.delta", "text"), DeltaOf(Payload(f), "text.delta", "text");
            && FramesDelta(c, Frames(body).frames) == a && LinesDelta(c, body) == a + b
            && (SameDeltas(c, body) ==> b == "")
  {
    UnclosedDelta(c, f);
    UnclosedFrames(c, e, DataText(c, f));
    OneDelta(c, e);
    EndOfBody(c, Printed(c, e) + DataText(c, f));
  }

  /** One printed event, and a second one that no blank line has closed: the line-wise reader counts its
      text, the frame-wise reader does not. */
  lemma UnclosedFrameParts(c: Codec, e: Event, f: Event)
    requires Printable(c, e) && Printable(c, f)
    requires TrimSpace(DeltaOf(Payload(e), "text.delta", "text")) != ""
    requires TrimSpace(DeltaOf(Payload(e), "text.delta", "text") + DeltaOf(Payload(f), "text.delta", "text")) != ""
    ensures var body := Printed(c, e) + DataText(c, f);
            var a, b := DeltaOf(Payload(e), "text.delta", "text"), DeltaOf(Payload(f), "text.delta", "text");
            && FrameText(c, body) == TrimSpace(a) && LineText(c, body) == TrimSpace(a + b)
            && (b != "" ==> !SameDeltas(c, body))
  {
    UnclosedCollects(c, e, f);
    TextsByCollection(c, Printed(c, e) + DataText(c, f));
  }

  lemma UnclosedFrames(c: Codec, e: Event, tail: string)
    requires Printable(c, e) && '\n' !in tail
    ensures Frames(Printed(c, e) + tail) == Framed([Frame(c, e)], tail)
  {
    FrameIsOpen(c, e);
    FirstFrame(Frame(c, e), tail);
    var s := Printed(c, e) + tail;
    assert s[|Frame(c, e)| + 2..] == tail && s[..|Frame(c, e)|] == Frame(c, e);
    assert FrameEnd(tail) < 0;
  }

  lemma OneDelta(c: Codec, e: Event)
    requires Printable(c, e)
    ensures var d := DeltaOf(Payload(e), "text.delta", "text");
            FramesDelta(c, [Frame(c, e)]) == d && PerFrame(c, [Frame(c, e)]) == LinesDelta(c, Frame(c, e)) == d
  {
    PrintedFrameIsSame(c, e);
    FrameData(c, e);
    var j := c.encode(Obj(Payload(e)));
    assert Join([j], "\n") == j && [Frame(c, e)][1..] == [];
    var d := DeltaOf(Payload(e), "text.delta", "text");
    assert FrameDelta(c, Frame(c, e)) == d && d + "" == d;
  }

  /** A closed frame whose payload stands on two data lines: joined it is a text delta, line by line it
      is nothing.  The line-wise reader then returns what the whole body yields. */
  lemma TwoLineFrameParts(c: Codec, x: string, y: string, m: map<string, Value>)
    requires x != "" && Tight(x) && '\n' !in x && y != "" && Tight(y) && '\n' !in y
    requires c.decode(x) == None && c.decode(y) == None && c.decode(x + "\n" + y) == Some(Obj(m))
    requires TrimSpace(DeltaOf(m, "text.delta", "text")) != ""
    ensures var body := "data: " + x + "\n" + ("data: " + y) + "\n\n";
            && Frames(body).rest == ""
            && FrameText(c, body) == TrimSpace(DeltaOf(m, "text.delta", "text"))
            && LineText(c, body) == ResponseText(c, body)
            && !SameDeltas(c, body)
  {
    var frame := "data: " + x + "\n" + ("data: " + y);
    var body := frame + "\n\n";
    TwoLineFrames(x, y);
    TwoLineDeltas(c, x, y, m);
    var d := DeltaOf(m, "text.delta", "text");
    assert FramesDelta(c, [frame]) == d by {
      assert [frame][1..] == [] && d + "" == d;
    }
    TextsByCollection(c, body);
    TwoLineScan(c, x, y);
  }

  lemma TwoLineDeltas(c: Codec, x: string, y: string, m: map<string, Value>)
    requires x != "" && Tight(x) && '\n' !in x && y != "" && Tight(y) && '\n' !in y
    requires c.decode(x) == None && c.decode(y) == None && c.decode(x + "\n" + y) == Some(Obj(m))
    ensures var frame := "data: " + x + "\n" + ("data: " + y);
            FrameDelta(c, frame) == DeltaOf(m, "text.delta", "text") && LinesDelta(c, frame) == ""
  {
    TwoLineData(x, y);
    TwoPayloads(c, x, y, m);
  }

  /** Two payloads that are nothing alone and one object joined. */
  lemma TwoPayloads(c: Codec, x: string, y: string, m: map<string, Value>)
    requires x != "" && y != ""
    requires c.decode(x) == None && c.decode(y) == None && c.decode(x + "\n" + y) == Some(Obj(m))
    ensures var data := [x] + [y];
            DataDelta(c, data) == "" && PayloadDelta(c, Join(data, "\n")) == DeltaOf(m, "text.delta", "text")
  {
    var data := [x] + [y];
    assert data[1..] == [y] && [y][1..] == [];
    assert Join(data, "\n") == x + "\n" + y;
    assert DataDelta(c, [y]) == "" + DataDelta(c, []);
    assert DataDelta(c, data) == "" + DataDelta(c, [y]);
  }

  lemma TwoLineData(x: string, y: string)
    requires x != "" && Tight(x) && '\n' !in x && y != "" && Tight(y) && '\n' !in y
    ensures DataLines(Lines("data: " + x + "\n" + ("data: " + y))) == [x] + [y]
  {
    var a, b := "data: " + x, "data: " + y;
    LinesCut(a, b);
    DataOfLine(x);
    DataOfLine(y);
    DataLinesAppend(Lines(a), Lines(b));
  }

  lemma TwoLineFrames(x: string, y: string)
    requires x != "" && '\n' !in x && y != "" && '\n' !in y
    ensures var frame := "data: " + x + "\n" + ("data: " + y); Frames(frame + "\n\n") == Framed([frame], "")
  {
    var first, second := "data: " + x, "data: " + y;
    var frame := first + "\n" + second;
    assert '\n' !in first && '\n' !in second;
    assert forall i :: 0 <= i < |frame| && i != |first| ==>
      frame[i] == (if i < |first| then first[i] else second[i - |first| - 1]) != '\n';
    FirstFrame(frame, "");
    assert frame + "\n\n" + "" == frame + "\n\n";
    var s := frame + "\n\n";
    assert s[..|frame|] == frame && s[|frame| + 2..] == "";
  }

  lemma TwoLineScan(c: Codec, x: string, y: string)
    requires x != "" && Tight(x) && '\n' !in x && y != "" && Tight(y) && '\n' !in y
    requires c.decode(x) == None && c.decode(y) == None
    ensures var body := "data: " + x + "\n" + ("data: " + y) + "\n\n"; LineText(c, body) == ResponseText(c, body)
  {
    var frame := "data: " + x + "\n" + ("data: " + y);
    var body := frame + "\n\n";
    assert body == frame + "\n" + ("" + "\n" + "");
    LinesCut(frame, "" + "\n" + "");
    LinesCut("", "");
    assert Lines("") == [""] && DataLine("") == [];
    DataLinesAppend([""], [""]);
    assert DataLines([""]) == DataLine("") + DataLines([]) == [];
    DataLinesAppend(Lines(frame), [""] + [""]);
    TwoLineData(x, y);
    var data := [x] + [y];
    assert DataLines(Lines(body)) == data + ([] + []) == data;
    assert data[1..] == [y] && [y][1..] == [];
    assert Scanned(c, NOTHING, data) == Scanned(c, NOTHING, [y]) == NOTHING;
  }
}
